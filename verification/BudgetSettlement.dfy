/** Tasks that several awaiting callers can share. */
module Tasks {
  type TaskId = nat

  /** `Scheduled` tasks have not run yet; `Outstanding` ones have a server call in the air. */
  datatype Status<R> = Scheduled | Outstanding | Succeeded(result: R) | Failed | Cancelled
  {
    predicate Live() { Scheduled? || Outstanding? }
    predicate Done() { !Live() }
    predicate Broken() { Failed? || Cancelled? }
  }

  /** Whether a caller that resumes sees a cancellation: its own, or that of the awaited task. */
  predicate SeesCancellation<R>(cancelled: bool, status: Status<R>) {
    cancelled || status.Cancelled?
  }
}

/**
 Settlement of a budget reservation, `AsyncWorkflowBudget`.

 `commit` and `release` share one settlement task per helper.  Any number of
 callers await it and can be cancelled at any await; the task itself can fail or
 be cancelled; a release that joined a failed commit takes over with a release.
 */
module BudgetSettlement {
  import opened Common
  import opened Tasks
  import Runs

  type CallerId = nat
  type Budget = nat

  datatype Kind = Commit | Release
  datatype Slot = Slot(task: TaskId, kind: Kind)

  /** The helper's fields; task and kind of the settlement are always set and cleared together. */
  datatype Fields = Fields(entered: bool, reserved: bool, closed: bool, result: Option<Budget>, slot: Option<Slot>)

  /** What a caller does when a stretch of code without awaits ends. */
  datatype Next = Return(result: Budget) | Raise | Await(slot: Slot)

  // ------------------------------------------------ the stretches between awaits

  function AlreadyClosed(f: Fields): Next {
    if f.result.Some? then Return(f.result.value) else Raise
  }

  predicate Holds(f: Fields, task: TaskId) {
    f.slot.Some? && f.slot.value.task == task
  }

  /** Await the current settlement, or start one of the given kind as `newTask`. */
  function Joined(f: Fields, kind: Kind, newTask: TaskId): (Fields, Next) {
    if f.slot.Some? then (f, Await(f.slot.value))
    else (f.(slot := Some(Slot(newTask, kind))), Await(Slot(newTask, kind)))
  }

  function CommitCalled(f: Fields, newTask: TaskId): (Fields, Next) {
    if f.closed then (f, AlreadyClosed(f)) else Joined(f, Commit, newTask)
  }

  function ReleaseCalled(f: Fields, newTask: TaskId): (Fields, Next) {
    if f.closed then (f, AlreadyClosed(f)) else Joined(f, Release, newTask)
  }

  function Cleared(f: Fields, task: TaskId): Fields {
    if Holds(f, task) then f.(slot := None) else f
  }

  function CommitResumed(f: Fields, task: TaskId, status: Status<Budget>, cancelled: bool): (Fields, Next) {
    if SeesCancellation(cancelled, status) then
      (if status.Broken() then Cleared(f, task) else f, Raise)
    else if status.Succeeded? then (f, Return(status.result))
    else (Cleared(f, task), Raise)
  }

  /** A release whose commit broke: install a release task unless somebody already moved on. */
  function HandedOver(f: Fields, task: TaskId, newTask: TaskId): (Fields, Next) {
    Joined(if Holds(f, task) then f.(slot := Some(Slot(newTask, Release))) else f, Release, newTask)
  }

  function ReleaseResumed(f: Fields, task: TaskId, kind: Kind, status: Status<Budget>, cancelled: bool,
                          newTask: TaskId): (Fields, Next)
  {
    if SeesCancellation(cancelled, status) then
      if kind.Commit? && status.Cancelled? then HandedOver(f, task, newTask)
      else if kind.Release? && status.Cancelled? then (Cleared(f, task), Raise)
      else (f, Raise)
    else if status.Succeeded? then (f, Return(status.result))
    else if kind.Commit? then HandedOver(f, task, newTask)
    else (Cleared(f, task), Raise)
  }

  // ------------------------------------------------ the machine

  /** Why a caller settles: by itself, leaving the context normally, or leaving it with an error. */
  datatype Mode = Plain | ExitNormally | ExitRaising

  datatype Frame =
    | Entering
    | Entered
    | Committing(task: TaskId, mode: Mode)
    | Releasing(task: TaskId, kind: Kind, mode: Mode)
    | Returned(result: Budget)
    | Exited
    | Raised

  datatype Task = Task(kind: Kind, status: Status<Budget>)

  datatype State = State(f: Fields, tasks: map<TaskId, Task>, frames: map<CallerId, Frame>)

  datatype Action =
    | Enter(c: CallerId)
    | FinishEnter(c: CallerId, ok: bool)
    | CallCommit(c: CallerId, newTask: TaskId)
    | CallRelease(c: CallerId, newTask: TaskId)
    | Exit(c: CallerId, failed: bool, newTask: TaskId)
    | Resume(c: CallerId, cancelled: bool, newTask: TaskId)
    | Send(task: TaskId)
    | Reply(task: TaskId, result: Option<Budget>)
    | CancelTask(task: TaskId)

  function Framed(s: State, c: CallerId, frame: Frame): State {
    s.(frames := s.frames[c := frame])
  }

  /** Store new fields and, if they name the new task, the task itself. */
  function Stored(s: State, f: Fields, newTask: TaskId): State {
    s.(f := f,
       tasks := if Holds(f, newTask) then s.tasks[newTask := Task(f.slot.value.kind, Scheduled)] else s.tasks)
  }

  function Finished(mode: Mode, next: Next): Frame {
    match mode
    case Plain => if next.Return? then Returned(next.result) else Raised
    case ExitNormally => if next.Return? then Exited else Raised
    case ExitRaising => Raised
  }

  function AfterRelease(s: State, c: CallerId, r: (Fields, Next), mode: Mode, newTask: TaskId): State {
    Framed(Stored(s, r.0, newTask), c,
           if r.1.Await? then Releasing(r.1.slot.task, r.1.slot.kind, mode) else Finished(mode, r.1))
  }

  /** A context exit whose commit raised goes on to release while the reservation is open. */
  function AfterCommit(s: State, c: CallerId, r: (Fields, Next), mode: Mode, newTask: TaskId): State {
    if mode.ExitNormally? && r.1.Raise? && !r.0.closed && r.0.reserved
    then AfterRelease(s, c, ReleaseCalled(r.0, newTask), ExitRaising, newTask)
    else Framed(Stored(s, r.0, newTask), c,
                if r.1.Await? then Committing(r.1.slot.task, mode) else Finished(mode, r.1))
  }

  predicate CanResume(s: State, task: TaskId, cancelled: bool) {
    task in s.tasks && (cancelled || s.tasks[task].status.Done())
  }

  function Step(s: State, a: Action): State {
    match a
    case Enter(c) =>
      if c in s.frames then s
      else if s.f.entered then Framed(s, c, Raised)
      else Framed(s.(f := s.f.(entered := true)), c, Entering)
    case FinishEnter(c, ok) =>
      if c !in s.frames || !s.frames[c].Entering? then s
      else if ok then Framed(s.(f := s.f.(reserved := true)), c, Entered) else Framed(s, c, Raised)
    case CallCommit(c, newTask) =>
      if c in s.frames || newTask in s.tasks then s
      else AfterCommit(s, c, CommitCalled(s.f, newTask), Plain, newTask)
    case CallRelease(c, newTask) =>
      if c in s.frames || newTask in s.tasks then s
      else AfterRelease(s, c, ReleaseCalled(s.f, newTask), Plain, newTask)
    case Exit(c, failed, newTask) =>
      if c in s.frames || newTask in s.tasks then s
      else if s.f.closed then Framed(s, c, if failed then Raised else Exited)
      else if failed then AfterRelease(s, c, ReleaseCalled(s.f, newTask), ExitRaising, newTask)
      else AfterCommit(s, c, CommitCalled(s.f, newTask), ExitNormally, newTask)
    case Resume(c, cancelled, newTask) =>
      if c !in s.frames || newTask in s.tasks then s
      else
        (match s.frames[c]
         case Committing(task, mode) =>
           if CanResume(s, task, cancelled)
           then AfterCommit(s, c, CommitResumed(s.f, task, s.tasks[task].status, cancelled), mode, newTask) else s
         case Releasing(task, kind, mode) =>
           if CanResume(s, task, cancelled)
           then AfterRelease(s, c, ReleaseResumed(s.f, task, kind, s.tasks[task].status, cancelled, newTask), mode, newTask)
           else s
         case _ => s)
    case Send(task) =>
      if task in s.tasks && s.tasks[task].status.Scheduled?
      then s.(tasks := s.tasks[task := s.tasks[task].(status := if s.f.reserved then Outstanding else Failed)]) else s
    case Reply(task, result) =>
      if task !in s.tasks || !s.tasks[task].status.Outstanding? then s
      else if result.None? then s.(tasks := s.tasks[task := s.tasks[task].(status := Failed)])
      else State(s.f.(closed := true, result := Some(result.value)),
                 s.tasks[task := s.tasks[task].(status := Succeeded(result.value))], s.frames)
    case CancelTask(task) =>
      if task in s.tasks && s.tasks[task].status.Live()
      then s.(tasks := s.tasks[task := s.tasks[task].(status := Cancelled)]) else s
  }

  function Initial(): State {
    State(Fields(false, false, false, None, None), map[], map[])
  }

  // ------------------------------------------------ safety

  /** Never two settlement calls outstanding. */
  ghost predicate SingleFlight(tasks: map<TaskId, Task>) {
    forall t, u :: t in tasks && u in tasks && tasks[t].status.Live() && tasks[u].status.Live() ==> t == u
  }

  ghost predicate AtMostOneSuccess(tasks: map<TaskId, Task>) {
    forall t, u :: t in tasks && u in tasks && tasks[t].status.Succeeded? && tasks[u].status.Succeeded? ==> t == u
  }

  /** Closed exactly when a settlement succeeded, and then with its result. */
  ghost predicate ClosedIffSettled(s: State) {
    s.f.closed <==> exists t :: t in s.tasks && s.tasks[t].status.Succeeded? && s.f.result == Some(s.tasks[t].status.result)
  }

  /** Whoever returns normally returns the settled result; a normal exit from the context leaves it settled. */
  ghost predicate ReturnsSettled(s: State) {
    && (forall c :: c in s.frames && s.frames[c].Exited? ==> s.f.closed)
    && (forall c :: c in s.frames && s.frames[c].Returned? ==> s.f.closed && s.f.result == Some(s.frames[c].result))
  }

  ghost predicate NothingSentUnreserved(s: State) {
    forall t :: t in s.tasks && (s.tasks[t].status.Outstanding? || s.tasks[t].status.Succeeded?) ==> s.f.reserved
  }

  ghost predicate Safe(s: State) {
    SingleFlight(s.tasks) && AtMostOneSuccess(s.tasks) && ClosedIffSettled(s) && ReturnsSettled(s)
    && NothingSentUnreserved(s)
  }

  // ------------------------------------------------ the invariant

  /** A task that is live or has succeeded is the one in the slot. */
  ghost predicate SlotOk(slot: Option<Slot>, tasks: map<TaskId, Task>) {
    && (slot.Some? ==> slot.value.task in tasks && tasks[slot.value.task].kind == slot.value.kind)
    && (forall t :: t in tasks && !tasks[t].status.Broken() ==> slot.Some? && slot.value.task == t)
  }

  ghost predicate ClosedOk(f: Fields, tasks: map<TaskId, Task>) {
    && (f.closed ==> f.slot.Some? && f.slot.value.task in tasks && tasks[f.slot.value.task].status.Succeeded?
                     && f.result == Some(tasks[f.slot.value.task].status.result))
    && (forall t :: t in tasks && tasks[t].status.Succeeded? ==> f.closed)
    && (forall t :: t in tasks && (tasks[t].status.Outstanding? || tasks[t].status.Succeeded?) ==> f.reserved)
  }

  ghost predicate FrameOk(f: Fields, tasks: map<TaskId, Task>, frame: Frame) {
    match frame
    case Committing(task, _) => task in tasks
    case Releasing(task, kind, mode) => task in tasks && tasks[task].kind == kind && !mode.ExitNormally?
    case Returned(result) => f.closed && f.result == Some(result)
    case Exited => f.closed
    case _ => true
  }

  ghost predicate FramesOk(s: State) {
    forall c :: c in s.frames ==> FrameOk(s.f, s.tasks, s.frames[c])
  }

  ghost predicate Inv(s: State) {
    SlotOk(s.f.slot, s.tasks) && ClosedOk(s.f, s.tasks) && FramesOk(s)
  }

  lemma InvImpliesSafe(s: State)
    requires Inv(s)
    ensures Safe(s)
  {
  }

  /** New fields that keep the slot, drop a broken task from it, or put a new task into a free one. */
  ghost predicate SlotMove(s: State, f: Fields, newTask: TaskId) {
    && f == s.f.(slot := f.slot)
    && (|| f.slot == s.f.slot
        || ((s.f.slot.None? || (s.f.slot.value.task in s.tasks && s.tasks[s.f.slot.value.task].status.Broken()))
            && (f.slot.None? || f.slot.value.task == newTask)))
  }

  lemma StoredKeepsInv(s: State, f: Fields, newTask: TaskId, c: CallerId, frame: Frame)
    requires Inv(s) && newTask !in s.tasks && SlotMove(s, f, newTask)
    requires FrameOk(f, Stored(s, f, newTask).tasks, frame)
    ensures Inv(Framed(Stored(s, f, newTask), c, frame))
  {
    var t := Framed(Stored(s, f, newTask), c, frame);
    forall d | d in t.frames ensures FrameOk(t.f, t.tasks, t.frames[d]) {
      if d != c { assert FrameOk(s.f, s.tasks, s.frames[d]); }
    }
  }

  lemma ReleaseKeepsInv(s: State, c: CallerId, r: (Fields, Next), mode: Mode, newTask: TaskId)
    requires Inv(s) && newTask !in s.tasks && SlotMove(s, r.0, newTask) && !mode.ExitNormally?
    requires r.1.Await? ==> r.0.slot == Some(r.1.slot)
    requires r.1.Return? ==> r.0.closed && r.0.result == Some(r.1.result)
    ensures Inv(AfterRelease(s, c, r, mode, newTask))
  {
    StoredKeepsInv(s, r.0, newTask, c, AfterRelease(s, c, r, mode, newTask).frames[c]);
  }

  lemma CommitKeepsInv(s: State, c: CallerId, r: (Fields, Next), mode: Mode, newTask: TaskId)
    requires Inv(s) && newTask !in s.tasks && SlotMove(s, r.0, newTask)
    requires r.0.slot.None? || r.0.slot == s.f.slot || r.1.Await?
    requires r.1.Await? ==> r.0.slot == Some(r.1.slot)
    requires r.1.Return? ==> r.0.closed && r.0.result == Some(r.1.result)
    ensures Inv(AfterCommit(s, c, r, mode, newTask))
  {
    if mode.ExitNormally? && r.1.Raise? && !r.0.closed && r.0.reserved {
      ReleaseKeepsInv(s, c, ReleaseCalled(r.0, newTask), ExitRaising, newTask);
    } else {
      StoredKeepsInv(s, r.0, newTask, c, AfterCommit(s, c, r, mode, newTask).frames[c]);
    }
  }

  lemma ResumeKeepsInv(s: State, c: CallerId, cancelled: bool, newTask: TaskId)
    requires Inv(s) && c in s.frames && newTask !in s.tasks
    ensures Inv(Step(s, Resume(c, cancelled, newTask)))
  {
    assert FrameOk(s.f, s.tasks, s.frames[c]);
    match s.frames[c]
    case Committing(task, mode) =>
      if CanResume(s, task, cancelled) {
        CommitKeepsInv(s, c, CommitResumed(s.f, task, s.tasks[task].status, cancelled), mode, newTask);
      }
    case Releasing(task, kind, mode) =>
      if CanResume(s, task, cancelled) {
        ReleaseKeepsInv(s, c, ReleaseResumed(s.f, task, kind, s.tasks[task].status, cancelled, newTask), mode, newTask);
      }
    case _ =>
  }

  lemma TaskStepKeepsInv(s: State, a: Action)
    requires Inv(s) && (a.Send? || a.Reply? || a.CancelTask?)
    ensures Inv(Step(s, a))
  {
    var t := Step(s, a);
    forall d | d in t.frames ensures FrameOk(t.f, t.tasks, t.frames[d]) {
      assert FrameOk(s.f, s.tasks, s.frames[d]);
    }
  }

  lemma StepKeepsInv(s: State, a: Action)
    requires Inv(s)
    ensures Inv(Step(s, a))
  {
    match a
    case Enter(c) => assert Inv(s.(f := s.f.(entered := true)));
    case FinishEnter(c, ok) => assert Inv(s.(f := s.f.(reserved := true)));
    case CallCommit(c, newTask) =>
      if c !in s.frames && newTask !in s.tasks {
        CommitKeepsInv(s, c, CommitCalled(s.f, newTask), Plain, newTask);
      }
    case CallRelease(c, newTask) =>
      if c !in s.frames && newTask !in s.tasks {
        ReleaseKeepsInv(s, c, ReleaseCalled(s.f, newTask), Plain, newTask);
      }
    case Exit(c, failed, newTask) =>
      if c !in s.frames && newTask !in s.tasks && !s.f.closed {
        if failed {
          ReleaseKeepsInv(s, c, ReleaseCalled(s.f, newTask), ExitRaising, newTask);
        } else {
          CommitKeepsInv(s, c, CommitCalled(s.f, newTask), ExitNormally, newTask);
        }
      }
    case Resume(c, cancelled, newTask) =>
      if c in s.frames && newTask !in s.tasks { ResumeKeepsInv(s, c, cancelled, newTask); }
    case _ => TaskStepKeepsInv(s, a);
  }

  /**
   Over every interleaving of commit, release, context exits, task failures and
   cancellations of callers and tasks: never two settlements outstanding, at
   most one succeeds, closed exactly with its result, a normal exit implies
   closed, and nothing is sent without a reservation.
   */
  lemma SettlementIsSafe(actions: seq<Action>)
    ensures Safe(Runs.Run(Step, Initial(), actions))
  {
    RunKeepsInv(Initial(), actions);
    InvImpliesSafe(Runs.Run(Step, Initial(), actions));
  }

  lemma {:induction false} RunKeepsInv(s: State, actions: seq<Action>)
    requires Inv(s)
    ensures Inv(Runs.Run(Step, s, actions))
    decreases |actions|
  {
    if actions != [] {
      var front := actions[..|actions| - 1];
      RunKeepsInv(s, front);
      StepKeepsInv(Runs.Run(Step, s, front), actions[|actions| - 1]);
    }
  }

  // ------------------------------------------------ settlement is final

  /** If `s` was closed, `t` is closed with the same result and no settlement has been started since. */
  ghost predicate Final(s: State, t: State) {
    s.f.closed ==> t.f.closed && t.f.result == s.f.result && t.f.slot == s.f.slot && t.tasks == s.tasks
  }

  lemma ClosedStepKeepsResult(s: State, a: Action)
    requires Inv(s) && s.f.closed
    ensures var t := Step(s, a); t.f.closed && t.f.result == s.f.result && t.f.slot == s.f.slot && t.tasks == s.tasks
  {
    if a.Resume? && a.c in s.frames {
      assert FrameOk(s.f, s.tasks, s.frames[a.c]);
    }
  }

  /** Once closed, the result never changes and no new settlement is ever started. */
  lemma SettlementIsFinal(before: seq<Action>, later: seq<Action>)
    ensures Final(Runs.Run(Step, Initial(), before), Runs.Run(Step, Initial(), before + later))
  {
    var s := Runs.Run(Step, Initial(), before);
    RunKeepsInv(Initial(), before);
    if s.f.closed { ClosedRunKeepsResult(s, later); }
    Runs.RunComposes(Step, Initial(), before, later);
  }

  lemma {:induction false} ClosedRunKeepsResult(s: State, actions: seq<Action>)
    requires Inv(s) && s.f.closed
    ensures Final(s, Runs.Run(Step, s, actions))
    decreases |actions|
  {
    if actions != [] {
      var front := actions[..|actions| - 1];
      ClosedRunKeepsResult(s, front);
      RunKeepsInv(s, front);
      ClosedStepKeepsResult(Runs.Run(Step, s, front), actions[|actions| - 1]);
    }
  }

  /**
   Hand-over: a release that joined a commit never surfaces the commit's
   failure.  Unless its own caller is cancelled, it goes on with another
   settlement: a release of its own, or one that somebody else started.
   */
  lemma ReleaseTakesOver(s: State, c: CallerId, cancelled: bool, newTask: TaskId)
    requires Inv(s) && c in s.frames && s.frames[c].Releasing? && s.frames[c].kind.Commit? && newTask !in s.tasks
    requires s.tasks[s.frames[c].task].status.Cancelled? || (s.tasks[s.frames[c].task].status.Failed? && !cancelled)
    ensures var t := Step(s, Resume(c, cancelled, newTask));
      && t.frames[c].Releasing? && t.frames[c].task != s.frames[c].task && t.frames[c].mode == s.frames[c].mode
      && t.f.slot == Some(Slot(t.frames[c].task, t.frames[c].kind))
      && (t.frames[c].task == newTask ==> t.frames[c].kind.Release?)
  {
    assert FrameOk(s.f, s.tasks, s.frames[c]);
  }

  // ------------------------------------------------ what the calls do

  /** On an open helper with a free slot, a commit or a normal exit starts a commit, a release or a raising exit a release. */
  lemma CallsStartTheirKind(s: State, c: CallerId, newTask: TaskId)
    requires c !in s.frames && newTask !in s.tasks && !s.f.closed && s.f.slot.None?
    ensures Step(s, CallCommit(c, newTask)).tasks == s.tasks[newTask := Task(Commit, Scheduled)]
    ensures Step(s, Exit(c, false, newTask)).tasks == s.tasks[newTask := Task(Commit, Scheduled)]
    ensures Step(s, CallRelease(c, newTask)).tasks == s.tasks[newTask := Task(Release, Scheduled)]
    ensures Step(s, Exit(c, true, newTask)).tasks == s.tasks[newTask := Task(Release, Scheduled)]
  {
  }

  /** On a closed helper every call answers at once with the settled result, and nothing is started. */
  lemma ClosedAnswers(s: State, c: CallerId, newTask: TaskId)
    requires Inv(s) && c !in s.frames && newTask !in s.tasks && s.f.closed
    ensures s.f.result.Some?
    ensures Step(s, CallCommit(c, newTask)) == s.(frames := s.frames[c := Returned(s.f.result.value)])
    ensures Step(s, CallRelease(c, newTask)) == s.(frames := s.frames[c := Returned(s.f.result.value)])
    ensures Step(s, Exit(c, false, newTask)) == s.(frames := s.frames[c := Exited])
    ensures Step(s, Exit(c, true, newTask)) == s.(frames := s.frames[c := Raised])
  {
  }

  /** The settlement that a call made now ends up with: the one in the slot, or its own. */
  function SettledWith(f: Fields, own: Kind, newTask: TaskId): Slot {
    if f.slot.Some? then f.slot.value else Slot(newTask, own)
  }

  /** A call that nobody interferes with: made, its settlement sent and answered, and resumed. */
  function Undisturbed(s: State, a: Action, c: CallerId, task: TaskId, answer: Option<Budget>, nextTask: TaskId): State {
    Step(Step(Step(Step(s, a), Send(task)), Reply(task, answer)), Resume(c, false, nextTask))
  }

  predicate SlotBroken(s: State) {
    s.f.slot.Some? && s.f.slot.value.task in s.tasks && s.tasks[s.f.slot.value.task].status.Broken()
  }

  predicate CanCall(s: State, c: CallerId, newTask: TaskId, nextTask: TaskId) {
    c !in s.frames && newTask !in s.tasks && nextTask !in s.tasks && newTask != nextTask && s.f.reserved && !s.f.closed
  }

  /** What each call is: its own kind of settlement, and what it ends in when that succeeds. */
  ghost predicate IsCall(a: Action, c: CallerId, newTask: TaskId, own: Kind, end: Budget -> Frame) {
    || (a == CallCommit(c, newTask) && own.Commit? && forall r :: end(r) == Returned(r))
    || (a == CallRelease(c, newTask) && own.Release? && forall r :: end(r) == Returned(r))
    || (a == Exit(c, false, newTask) && own.Commit? && forall r :: end(r) == Exited)
    || (a == Exit(c, true, newTask) && own.Release? && forall r :: end(r) == Raised)
  }

  /** The caller awaits a live settlement, the one in the slot. */
  predicate Waits(s: State, c: CallerId, slot: Slot, frame: Frame) {
    && s.f.slot == Some(slot) && slot.task in s.tasks && s.tasks[slot.task].kind == slot.kind
    && s.tasks[slot.task].status.Live() && c in s.frames && s.frames[c] == frame
  }

  lemma CommitCallWaits(s: State, c: CallerId, newTask: TaskId, nextTask: TaskId)
    requires Inv(s) && CanCall(s, c, newTask, nextTask) && !SlotBroken(s)
    ensures var slot := SettledWith(s.f, Commit, newTask);
            && Waits(Step(s, CallCommit(c, newTask)), c, slot, Committing(slot.task, Plain))
            && Waits(Step(s, Exit(c, false, newTask)), c, slot, Committing(slot.task, ExitNormally))
  {
  }

  lemma ReleaseCallWaits(s: State, c: CallerId, newTask: TaskId, nextTask: TaskId)
    requires Inv(s) && CanCall(s, c, newTask, nextTask) && !SlotBroken(s)
    ensures var slot := SettledWith(s.f, Release, newTask);
            && Waits(Step(s, CallRelease(c, newTask)), c, slot, Releasing(slot.task, slot.kind, Plain))
            && Waits(Step(s, Exit(c, true, newTask)), c, slot, Releasing(slot.task, slot.kind, ExitRaising))
  {
  }

  lemma WaiterEnds(s: State, c: CallerId, slot: Slot, frame: Frame, nextTask: TaskId, result: Budget)
    requires Waits(s, c, slot, frame) && s.f.reserved && nextTask !in s.tasks
    requires (frame.Committing? || frame.Releasing?) && frame.task == slot.task
    ensures var t := Step(Step(Step(s, Send(slot.task)), Reply(slot.task, Some(result))), Resume(c, false, nextTask));
            && c in t.frames
            && t.frames[c] == (match frame.mode case Plain => Returned(result) case ExitNormally => Exited case ExitRaising => Raised)
            && slot.task in t.tasks && t.tasks[slot.task] == Task(slot.kind, Succeeded(result))
            && t.f.closed && t.f.result == Some(result)
  {
    var s2 := Step(s, Send(slot.task));
    assert s2.tasks[slot.task] == Task(slot.kind, Outstanding) && s2.frames == s.frames;
    var s3 := Step(s2, Reply(slot.task, Some(result)));
    assert s3.tasks[slot.task] == Task(slot.kind, Succeeded(result)) && s3.frames == s.frames;
  }

  /**
   Undisturbed, on a slot that is free or holds a live settlement, every call ends
   as it should once that settlement succeeds: with its result, out of the context
   normally, or out of it with the error it was left with.
   */
  lemma SuccessEndsTheCall(s: State, a: Action, c: CallerId, own: Kind, end: Budget -> Frame, newTask: TaskId, nextTask: TaskId,
                           result: Budget)
    requires Inv(s) && CanCall(s, c, newTask, nextTask) && !SlotBroken(s) && IsCall(a, c, newTask, own, end)
    ensures var slot := SettledWith(s.f, own, newTask);
            var t := Undisturbed(s, a, c, slot.task, Some(result), nextTask);
            && c in t.frames && t.frames[c] == end(result)
            && slot.task in t.tasks && t.tasks[slot.task] == Task(slot.kind, Succeeded(result))
            && t.f.closed && t.f.result == Some(result)
  {
    var slot := SettledWith(s.f, own, newTask);
    CommitCallWaits(s, c, newTask, nextTask);
    ReleaseCallWaits(s, c, newTask, nextTask);
    var s1 := Step(s, a);
    assert s1.f.reserved && nextTask !in s1.tasks;
    WaiterEnds(s1, c, slot, s1.frames[c], nextTask, result);
  }

  lemma WaiterFails(s: State, c: CallerId, slot: Slot, frame: Frame, nextTask: TaskId)
    requires Waits(s, c, slot, frame) && s.f.reserved && !s.f.closed && nextTask !in s.tasks
    requires (frame.Committing? && frame.mode.Plain?) || (frame.Releasing? && frame.kind.Release? && !frame.mode.ExitNormally?)
    requires frame.task == slot.task
    ensures var t := Step(Step(Step(s, Send(slot.task)), Reply(slot.task, None)), Resume(c, false, nextTask));
            c in t.frames && t.frames[c] == Raised && t.f.slot.None? && !t.f.closed && nextTask !in t.tasks
  {
    var s2 := Step(s, Send(slot.task));
    assert s2.tasks[slot.task] == Task(slot.kind, Outstanding) && s2.frames == s.frames;
    var s3 := Step(s2, Reply(slot.task, None));
    assert s3.tasks[slot.task] == Task(slot.kind, Failed) && s3.frames == s.frames;
  }

  /** A commit whose settlement failed raises and frees the slot, so that the next call starts afresh. */
  lemma FailedCommitFreesTheSlot(s: State, c: CallerId, newTask: TaskId, nextTask: TaskId)
    requires Inv(s) && CanCall(s, c, newTask, nextTask) && !SlotBroken(s)
    ensures var slot := SettledWith(s.f, Commit, newTask);
            var t := Undisturbed(s, CallCommit(c, newTask), c, slot.task, None, nextTask);
            c in t.frames && t.frames[c] == Raised && t.f.slot.None? && !t.f.closed && nextTask !in t.tasks
  {
    var slot := SettledWith(s.f, Commit, newTask);
    CommitCallWaits(s, c, newTask, nextTask);
    var s1 := Step(s, CallCommit(c, newTask));
    assert s1.f.reserved && !s1.f.closed && nextTask !in s1.tasks;
    WaiterFails(s1, c, slot, Committing(slot.task, Plain), nextTask);
  }

  /** So does a release, by a call or by a raising exit, whose release failed. */
  lemma FailedReleaseFreesTheSlot(s: State, c: CallerId, newTask: TaskId, nextTask: TaskId, exit: bool)
    requires Inv(s) && CanCall(s, c, newTask, nextTask) && !SlotBroken(s) && SettledWith(s.f, Release, newTask).kind.Release?
    ensures var slot := SettledWith(s.f, Release, newTask);
            var t := Undisturbed(s, if exit then Exit(c, true, newTask) else CallRelease(c, newTask), c, slot.task, None, nextTask);
            c in t.frames && t.frames[c] == Raised && t.f.slot.None? && !t.f.closed && nextTask !in t.tasks
  {
    var slot := SettledWith(s.f, Release, newTask);
    ReleaseCallWaits(s, c, newTask, nextTask);
    var s1 := Step(s, if exit then Exit(c, true, newTask) else CallRelease(c, newTask));
    assert s1.f.reserved && !s1.f.closed && nextTask !in s1.tasks;
    WaiterFails(s1, c, slot, s1.frames[c], nextTask);
  }

  /** A normal exit whose commit failed goes on with a release, and will raise. */
  lemma FailedExitReleases(s: State, c: CallerId, newTask: TaskId, nextTask: TaskId)
    requires Inv(s) && CanCall(s, c, newTask, nextTask) && s.f.slot.None?
    ensures var t := Undisturbed(s, Exit(c, false, newTask), c, newTask, None, nextTask);
            c in t.frames && t.frames[c] == Releasing(nextTask, Release, ExitRaising)
            && nextTask in t.tasks && t.tasks[nextTask] == Task(Release, Scheduled)
  {
    var s1 := Step(s, Exit(c, false, newTask));
    assert s1.tasks[newTask] == Task(Commit, Scheduled) && s1.frames[c] == Committing(newTask, ExitNormally);
    var s2 := Step(s1, Send(newTask));
    assert s2.tasks[newTask] == Task(Commit, Outstanding);
  }

  /** A caller that is cancelled while its settlement is under way raises and leaves the settlement alone. */
  lemma CancelledCallerLeavesSettlement(s: State, c: CallerId, newTask: TaskId)
    requires Inv(s) && c in s.frames && newTask !in s.tasks
    requires (s.frames[c].Committing? || s.frames[c].Releasing?) && s.frames[c].mode.Plain? && s.tasks[s.frames[c].task].status.Live()
    ensures Step(s, Resume(c, true, newTask)) == s.(frames := s.frames[c := Raised])
  {
    assert FrameOk(s.f, s.tasks, s.frames[c]);
  }

  function Reached(actions: seq<Action>): State { Runs.Run(Step, Initial(), actions) }

  // ------------------------------------------------ entering

  predicate InContext(frames: map<CallerId, Frame>, c: CallerId) {
    c in frames && (frames[c].Entering? || frames[c].Entered?)
  }

  /** Whoever entered the context is alone in it, and the helper remembers that it was entered. */
  ghost predicate EntryOk(frames: map<CallerId, Frame>, entered: bool) {
    && (forall c :: InContext(frames, c) ==> entered)
    && (forall c, d :: InContext(frames, c) && InContext(frames, d) ==> c == d)
  }

  lemma EntersOnlyFirst(s: State, a: Action, c: CallerId)
    requires InContext(Step(s, a).frames, c)
    ensures InContext(s.frames, c) || (a == Enter(c) && !s.f.entered && Step(s, a).f.entered)
  {
  }

  lemma StepKeepsEntry(s: State, a: Action)
    requires EntryOk(s.frames, s.f.entered)
    ensures EntryOk(Step(s, a).frames, Step(s, a).f.entered)
  {
    var t := Step(s, a);
    forall c | InContext(t.frames, c)
      ensures InContext(s.frames, c) || (a == Enter(c) && !s.f.entered && t.f.entered)
    {
      EntersOnlyFirst(s, a, c);
    }
    assert s.f.entered ==> t.f.entered;
  }

  /** Over every run: the helper is entered at most once, and the server is asked for one reservation. */
  lemma {:induction false} EnteredOnce(actions: seq<Action>)
    ensures EntryOk(Reached(actions).frames, Reached(actions).f.entered)
    decreases |actions|
  {
    if actions != [] {
      EnteredOnce(actions[..|actions| - 1]);
      StepKeepsEntry(Reached(actions[..|actions| - 1]), actions[|actions| - 1]);
    }
  }

  // ------------------------------------------------ where settlements come from

  /** The actions that may start a commit, and those that may start a release. */
  predicate MayStartCommit(a: Action) { a.CallCommit? || (a.Exit? && !a.failed) }

  ghost predicate MayStartRelease(s: State, a: Action) {
    || a.CallRelease? || (a.Exit? && a.failed)
    || (a.Resume? && a.c in s.frames && BehindBrokenCommit(s, s.frames[a.c], a.cancelled))
  }

  /** The caller awaits a commit that broke, or gives up on one because it is cancelled at its context's exit. */
  predicate BehindBrokenCommit(s: State, frame: Frame, cancelled: bool) {
    || (frame.Releasing? && frame.kind.Commit? && frame.task in s.tasks && s.tasks[frame.task].status.Broken())
    || (frame.Committing? && frame.mode.ExitNormally? && frame.task in s.tasks
        && (cancelled || s.tasks[frame.task].status.Broken()))
  }

  /** A step that starts a settlement starts a commit only for a commit call or a normal exit, a release only for its causes. */
  lemma StartsForAReason(s: State, a: Action, task: TaskId)
    requires Inv(s) && task !in s.tasks && task in Step(s, a).tasks
    ensures Step(s, a).tasks[task].kind.Commit? ==> MayStartCommit(a)
    ensures Step(s, a).tasks[task].kind.Release? ==> MayStartRelease(s, a)
  {
    if a.Resume? && a.c in s.frames { assert FrameOk(s.f, s.tasks, s.frames[a.c]); }
  }

  lemma KindsStay(s: State, a: Action, task: TaskId)
    requires task in s.tasks
    ensures task in Step(s, a).tasks && Step(s, a).tasks[task].kind == s.tasks[task].kind
  {
  }

  ghost predicate Started(actions: seq<Action>, kind: Kind, k: nat)
    requires k < |actions|
  {
    if kind.Commit? then MayStartCommit(actions[k]) else MayStartRelease(Reached(actions[..k]), actions[k])
  }

  /** Over every run: each commit goes back to a commit call or a normal exit, each release to one of its causes. */
  lemma {:induction false} SettlementsHaveAReason(actions: seq<Action>, task: TaskId)
    requires task in Reached(actions).tasks
    ensures exists k: nat | k < |actions| :: Started(actions, Reached(actions).tasks[task].kind, k)
    decreases |actions|
  {
    if actions != [] {
      var n := |actions| - 1;
      var front := actions[..n];
      var s := Reached(front);
      RunKeepsInv(Initial(), front);
      if task in s.tasks {
        KindsStay(s, actions[n], task);
        SettlementsHaveAReason(front, task);
        var k: nat :| k < |front| && Started(front, s.tasks[task].kind, k);
        assert front[..k] == actions[..k];
        assert Started(actions, s.tasks[task].kind, k);
      } else {
        StartsForAReason(s, actions[n], task);
        assert Started(actions, Reached(actions).tasks[task].kind, n);
      }
    }
  }

  // ------------------------------------------------ the helper itself

  class AsyncWorkflowBudget {
    var entered: bool
    var reserved: bool
    var closed: bool
    var result: Option<Budget>
    var settlementTask: Option<TaskId>
    var settlementKind: Option<Kind>

    ghost predicate Valid()
      reads this
    {
      settlementTask.Some? <==> settlementKind.Some?
    }

    ghost function View(): Fields
      reads this
      requires Valid()
    {
      Fields(entered, reserved, closed, result,
             if settlementTask.Some? then Some(Slot(settlementTask.value, settlementKind.value)) else None)
    }

    constructor ()
      ensures Valid() && View() == Initial().f
    {
      entered, reserved, closed := false, false, false;
      result, settlementTask, settlementKind := None, None, None;
    }

    /** `commit` up to its await. */
    method Commit(newTask: TaskId) returns (next: Next)
      requires Valid()
      modifies this
      ensures Valid() && (View(), next) == CommitCalled(old(View()), newTask)
    {
      if closed { return if result.None? then Raise else Return(result.value); }
      if settlementTask.None? {
        settlementTask, settlementKind := Some(newTask), Some(Kind.Commit);
      }
      return Await(Slot(settlementTask.value, settlementKind.value));
    }

    /** `commit` after its await. */
    method CommitAfter(task: TaskId, status: Status<Budget>, cancelled: bool) returns (next: Next)
      requires Valid() && (cancelled || status.Done())
      modifies this
      ensures Valid() && (View(), next) == CommitResumed(old(View()), task, status, cancelled)
    {
      if cancelled || status.Cancelled? {
        if status.Broken() && settlementTask == Some(task) { settlementTask, settlementKind := None, None; }
        return Raise;
      }
      if status.Succeeded? { return Return(status.result); }
      if settlementTask == Some(task) { settlementTask, settlementKind := None, None; }
      return Raise;
    }

    /** The head of the loop in `release`. */
    method ReleaseHead(newTask: TaskId) returns (next: Next)
      requires Valid()
      modifies this
      ensures Valid() && (View(), next) == Joined(old(View()), Kind.Release, newTask)
    {
      if settlementTask.None? {
        settlementTask, settlementKind := Some(newTask), Some(Kind.Release);
      }
      return Await(Slot(settlementTask.value, settlementKind.value));
    }

    /** `release` up to its first await. */
    method Release(newTask: TaskId) returns (next: Next)
      requires Valid()
      modifies this
      ensures Valid() && (View(), next) == ReleaseCalled(old(View()), newTask)
    {
      if closed { return if result.None? then Raise else Return(result.value); }
      next := ReleaseHead(newTask);
    }

    /** `release` after an await: it returns, raises, or goes round its loop. */
    method ReleaseAfter(task: TaskId, kind: Kind, status: Status<Budget>, cancelled: bool, newTask: TaskId)
      returns (next: Next)
      requires Valid() && (cancelled || status.Done())
      modifies this
      ensures Valid() && (View(), next) == ReleaseResumed(old(View()), task, kind, status, cancelled, newTask)
    {
      if cancelled || status.Cancelled? {
        if kind.Release? || !status.Cancelled? {
          if status.Cancelled? && settlementTask == Some(task) { settlementTask, settlementKind := None, None; }
          return Raise;
        }
      } else if status.Succeeded? {
        return Return(status.result);
      } else if kind.Release? {
        if settlementTask == Some(task) { settlementTask, settlementKind := None, None; }
        return Raise;
      }
      if settlementTask == Some(task) {
        settlementTask, settlementKind := Some(newTask), Some(Kind.Release);
      }
      next := ReleaseHead(newTask);
    }

    /** The settlement task when the server has answered. */
    method Record(settled: Budget)
      requires Valid()
      modifies `closed, `result
      ensures Valid() && View() == old(View()).(closed := true, result := Some(settled))
    {
      closed := true;
      result := Some(settled);
    }
  }
}
