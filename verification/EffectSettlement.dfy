/**
 The external-effect helper `AsyncWorkflowEffect`.

 One shared reservation task and one shared settlement task per helper.  Callers
 of `reserve`, `confirm`, `fail` and `call` await them and can be cancelled at
 any await; a `fail` that joined a broken confirm goes round its loop.
 */
module EffectSettlement {
  import opened Common
  import opened Tasks
  import Runs

  type CallerId = nat
  type Result = nat

  datatype Kind = Confirm | Fail
  datatype Slot = Slot(task: TaskId, kind: Kind)

  datatype Fields = Fields(reservation: Option<Result>, reservationTask: Option<TaskId>,
                           closed: bool, result: Option<Result>, slot: Option<Slot>)

  datatype Next = Return(result: Result) | Raise | AwaitReservation(task: TaskId) | AwaitSettlement(slot: Slot)

  // ------------------------------------------------ the stretches between awaits

  function ReserveCalled(f: Fields, newTask: TaskId): (Fields, Next) {
    if f.reservation.Some? then (f, Return(f.reservation.value))
    else if f.reservationTask.Some? then (f, AwaitReservation(f.reservationTask.value))
    else (f.(reservationTask := Some(newTask)), AwaitReservation(newTask))
  }

  /** `reserve` after its await: the shared task is forgotten once it is known to be broken. */
  function ReserveResumed(f: Fields, task: TaskId, status: Status<Result>, cancelled: bool): (Fields, Next) {
    var cleared := if f.reservationTask == Some(task) then f.(reservationTask := None) else f;
    if SeesCancellation(cancelled, status) then (if status.Cancelled? then cleared else f, Raise)
    else if status.Succeeded? then (f, Return(status.result))
    else (cleared, Raise)
  }

  /** Await the current settlement, or start one of the given kind. */
  function Joined(f: Fields, kind: Kind, newTask: TaskId): (Fields, Next) {
    if f.slot.Some? then (f, AwaitSettlement(f.slot.value))
    else (f.(slot := Some(Slot(newTask, kind))), AwaitSettlement(Slot(newTask, kind)))
  }

  /** `confirm` and `fail` up to their first await: reserve, then settle. */
  function SettleCalled(f: Fields, kind: Kind, newTask: TaskId): (Fields, Next) {
    if f.closed && f.result.Some? then (f, Return(f.result.value))
    else
      var r := ReserveCalled(f, newTask);
      if r.1.Return? then Joined(f, kind, newTask) else r
  }

  function Cleared(f: Fields, task: TaskId): Fields {
    if f.slot.Some? && f.slot.value.task == task then f.(slot := None) else f
  }

  function ConfirmResumed(f: Fields, task: TaskId, status: Status<Result>, cancelled: bool): (Fields, Next) {
    if SeesCancellation(cancelled, status) then (if status.Cancelled? then Cleared(f, task) else f, Raise)
    else if status.Succeeded? then (f, Return(status.result))
    else (Cleared(f, task), Raise)
  }

  /** `fail` loops when what it awaited was a confirm that broke. */
  function FailResumed(f: Fields, task: TaskId, kind: Kind, status: Status<Result>, cancelled: bool,
                       newTask: TaskId): (Fields, Next)
  {
    if SeesCancellation(cancelled, status) && !status.Cancelled? then (f, Raise)
    else if status.Succeeded? then (f, Return(status.result))
    else if kind.Confirm? then Joined(Cleared(f, task), Fail, newTask)
    else (Cleared(f, task), Raise)
  }

  // ------------------------------------------------ the machine

  /** What a caller is after. */
  datatype Goal = Reserve | Settle(kind: Kind) | Call

  datatype Frame =
    | Reserving(task: TaskId, goal: Goal)
    | Running                                                          // `call` runs the external function
    | Settling(task: TaskId, joined: Kind, own: Kind, raising: bool)   // `raising`: behind an error of the function
    | Reserved
    | Returned(result: Result)
    | Replayed
    | Raised

  datatype Task = ReserveTask(status: Status<Result>) | SettleTask(kind: Kind, status: Status<Result>)

  datatype State = State(f: Fields, tasks: map<TaskId, Task>, frames: map<CallerId, Frame>)

  datatype Action =
    | CallReserve(c: CallerId, newTask: TaskId)
    | CallSettle(c: CallerId, kind: Kind, newTask: TaskId)
    | CallCall(c: CallerId, newTask: TaskId, replayed: bool)
    | Resume(c: CallerId, cancelled: bool, replayed: bool, newTask: TaskId)
    | FunctionEnds(c: CallerId, ok: bool, newTask: TaskId)
    | Send(task: TaskId)
    | Reply(task: TaskId, result: Option<Result>)
    | CancelTask(task: TaskId)

  /** Store new fields and the task they newly name, and move caller `c`. */
  function Moved(s: State, f: Fields, newTask: TaskId, c: CallerId, frame: Frame): State {
    State(f,
          if f.reservationTask == Some(newTask) then s.tasks[newTask := ReserveTask(Scheduled)]
          else if f.slot.Some? && f.slot.value.task == newTask
          then s.tasks[newTask := SettleTask(f.slot.value.kind, Scheduled)] else s.tasks,
          s.frames[c := frame])
  }

  /** A caller that has its reservation goes on towards its goal. */
  function Onwards(s: State, f: Fields, c: CallerId, goal: Goal, replayed: bool, newTask: TaskId): State {
    match goal
    case Reserve => Moved(s, f, newTask, c, Reserved)
    case Call => Moved(s, f, newTask, c, if replayed then Replayed else Running)
    case Settle(kind) =>
      var r := Joined(f, kind, newTask);
      Moved(s, r.0, newTask, c, Settling(r.1.slot.task, r.1.slot.kind, kind, false))
  }

  function AfterReserve(s: State, c: CallerId, r: (Fields, Next), goal: Goal, replayed: bool, newTask: TaskId): State {
    match r.1
    case AwaitReservation(task) => Moved(s, r.0, newTask, c, Reserving(task, goal))
    case Return(_) => Onwards(s, r.0, c, goal, replayed, newTask)
    case _ => Moved(s, r.0, newTask, c, Raised)
  }

  function AfterSettle(s: State, c: CallerId, r: (Fields, Next), own: Kind, raising: bool, newTask: TaskId): State
  {
    match r.1
    case AwaitReservation(task) => Moved(s, r.0, newTask, c, Reserving(task, Settle(own)))
    case AwaitSettlement(slot) => Moved(s, r.0, newTask, c, Settling(slot.task, slot.kind, own, raising))
    case Return(result) => Moved(s, r.0, newTask, c, if raising then Raised else Returned(result))
    case Raise => Moved(s, r.0, newTask, c, Raised)
  }

  predicate CanResume(s: State, task: TaskId, cancelled: bool) {
    task in s.tasks && (cancelled || s.tasks[task].status.Done())
  }

  function Resumed(s: State, c: CallerId, cancelled: bool, replayed: bool, newTask: TaskId): State
    requires c in s.frames
  {
    match s.frames[c]
    case Reserving(task, goal) =>
      if CanResume(s, task, cancelled)
      then AfterReserve(s, c, ReserveResumed(s.f, task, s.tasks[task].status, cancelled), goal, replayed, newTask) else s
    case Settling(task, joined, own, raising) =>
      if !CanResume(s, task, cancelled) then s
      else if own.Confirm?
      then AfterSettle(s, c, ConfirmResumed(s.f, task, s.tasks[task].status, cancelled), own, raising, newTask)
      else AfterSettle(s, c, FailResumed(s.f, task, joined, s.tasks[task].status, cancelled, newTask), own, raising, newTask)
    case _ => s
  }

  function Replied(s: State, task: TaskId, result: Option<Result>): State
    requires task in s.tasks
  {
    if result.None? then s.(tasks := s.tasks[task := s.tasks[task].(status := Failed)])
    else
      State(if s.tasks[task].ReserveTask? then s.f.(reservation := Some(result.value))
            else s.f.(closed := true, result := Some(result.value)),
            s.tasks[task := s.tasks[task].(status := Succeeded(result.value))], s.frames)
  }

  function Step(s: State, a: Action): State {
    match a
    case CallReserve(c, newTask) =>
      if c in s.frames || newTask in s.tasks then s
      else AfterReserve(s, c, ReserveCalled(s.f, newTask), Reserve, false, newTask)
    case CallSettle(c, kind, newTask) =>
      if c in s.frames || newTask in s.tasks then s
      else AfterSettle(s, c, SettleCalled(s.f, kind, newTask), kind, false, newTask)
    case CallCall(c, newTask, replayed) =>
      if c in s.frames || newTask in s.tasks then s
      else AfterReserve(s, c, ReserveCalled(s.f, newTask), Call, replayed, newTask)
    case Resume(c, cancelled, replayed, newTask) =>
      if c !in s.frames || newTask in s.tasks then s else Resumed(s, c, cancelled, replayed, newTask)
    case FunctionEnds(c, ok, newTask) =>
      if c !in s.frames || !s.frames[c].Running? || newTask in s.tasks then s
      else
        var kind := if ok then Confirm else Fail;
        AfterSettle(s, c, SettleCalled(s.f, kind, newTask), kind, !ok, newTask)
    case Send(task) =>
      if task in s.tasks && s.tasks[task].status.Scheduled?
      then s.(tasks := s.tasks[task := s.tasks[task].(status := Outstanding)]) else s
    case Reply(task, result) =>
      if task in s.tasks && s.tasks[task].status.Outstanding? then Replied(s, task, result) else s
    case CancelTask(task) =>
      if task in s.tasks && s.tasks[task].status.Live()
      then s.(tasks := s.tasks[task := s.tasks[task].(status := Cancelled)]) else s
  }

  function Initial(): State {
    State(Fields(None, None, false, None, None), map[], map[])
  }

  // ------------------------------------------------ safety

  ghost predicate OneReservation(tasks: map<TaskId, Task>) {
    forall t, u | t in tasks && u in tasks && tasks[t].ReserveTask? && tasks[u].ReserveTask?
      :: !tasks[t].status.Broken() && !tasks[u].status.Broken() ==> t == u
  }

  /** At most one settlement is outstanding or has succeeded; so a fail never coexists with such a confirm. */
  ghost predicate OneSettlement(tasks: map<TaskId, Task>) {
    forall t, u | t in tasks && u in tasks && tasks[t].SettleTask? && tasks[u].SettleTask?
      :: !tasks[t].status.Broken() && !tasks[u].status.Broken() ==> t == u
  }

  ghost predicate SettledAfterReserved(s: State) {
    && (forall t :: t in s.tasks && s.tasks[t].SettleTask? ==> s.f.reservation.Some?)
    && (forall c :: c in s.frames && s.frames[c].Running? ==> s.f.reservation.Some?)
  }

  ghost predicate ReturnsSettled(s: State) {
    forall c :: c in s.frames && s.frames[c].Returned? ==>
      s.f.closed && s.f.result == Some(s.frames[c].result)
      && exists t :: t in s.tasks && s.tasks[t].SettleTask? && s.tasks[t].status == Succeeded(s.frames[c].result)
  }

  ghost predicate Safe(s: State) {
    OneReservation(s.tasks) && OneSettlement(s.tasks) && SettledAfterReserved(s) && ReturnsSettled(s)
  }

  // ------------------------------------------------ the invariant

  ghost predicate ReservationOk(f: Fields, tasks: map<TaskId, Task>) {
    && (f.reservationTask.Some? ==> f.reservationTask.value in tasks && tasks[f.reservationTask.value].ReserveTask?)
    && (forall t :: t in tasks && tasks[t].ReserveTask? && !tasks[t].status.Broken() ==> f.reservationTask == Some(t))
    && (forall t :: t in tasks && tasks[t].ReserveTask? && tasks[t].status.Succeeded? ==> f.reservation.Some?)
  }

  ghost predicate SlotOk(f: Fields, tasks: map<TaskId, Task>) {
    && (f.slot.Some? ==> f.slot.value.task in tasks && tasks[f.slot.value.task].SettleTask?
                         && tasks[f.slot.value.task].kind == f.slot.value.kind)
    && (forall t :: t in tasks && tasks[t].SettleTask? && !tasks[t].status.Broken() ==>
          f.slot == Some(Slot(t, tasks[t].kind)))
    && (forall t :: t in tasks && tasks[t].SettleTask? ==> f.reservation.Some?)
  }

  ghost predicate ClosedOk(f: Fields, tasks: map<TaskId, Task>) {
    && (f.closed ==> f.slot.Some? && f.slot.value.task in tasks && f.result.Some?
                     && tasks[f.slot.value.task] == SettleTask(f.slot.value.kind, Succeeded(f.result.value)))
    && (forall t :: t in tasks && tasks[t].SettleTask? && tasks[t].status.Succeeded? ==> f.closed)
  }

  ghost predicate FrameOk(f: Fields, tasks: map<TaskId, Task>, frame: Frame) {
    match frame
    case Reserving(task, _) => task in tasks && tasks[task].ReserveTask?
    case Settling(task, joined, _, _) => task in tasks && tasks[task].SettleTask? && tasks[task].kind == joined
    case Running => f.reservation.Some?
    case Returned(result) => f.closed && f.result == Some(result)
    case _ => true
  }

  ghost predicate FramesOk(s: State) {
    forall c :: c in s.frames ==> FrameOk(s.f, s.tasks, s.frames[c])
  }

  ghost predicate Inv(s: State) {
    ReservationOk(s.f, s.tasks) && SlotOk(s.f, s.tasks) && ClosedOk(s.f, s.tasks) && FramesOk(s)
  }

  lemma InvImpliesSafe(s: State)
    requires Inv(s)
    ensures Safe(s)
  {
    forall c | c in s.frames && s.frames[c].Returned?
      ensures exists t :: t in s.tasks && s.tasks[t].SettleTask? && s.tasks[t].status == Succeeded(s.frames[c].result)
    {
      assert FrameOk(s.f, s.tasks, s.frames[c]);
      assert s.tasks[s.f.slot.value.task] == SettleTask(s.f.slot.value.kind, Succeeded(s.frames[c].result));
    }
  }

  predicate Broken(tasks: map<TaskId, Task>, task: TaskId) {
    task in tasks && tasks[task].status.Broken()
  }

  /** Fields may forget a broken task or name one new task where none was named. */
  ghost predicate FieldsMove(s: State, f: Fields, newTask: TaskId) {
    && f == s.f.(reservationTask := f.reservationTask, slot := f.slot)
    && (|| f.reservationTask == s.f.reservationTask
        || (f.reservationTask.None? && Broken(s.tasks, s.f.reservationTask.value))
        || (s.f.reservationTask.None? && f.reservationTask == Some(newTask) && f.slot == s.f.slot))
    && (|| f.slot == s.f.slot
        || (f.slot.None? && Broken(s.tasks, s.f.slot.value.task))
        || (f.slot.Some? && f.slot.value.task == newTask && s.f.reservation.Some?
            && (s.f.slot.None? || Broken(s.tasks, s.f.slot.value.task))))
  }

  lemma MoveKeepsInv(s: State, f: Fields, newTask: TaskId, c: CallerId, frame: Frame)
    requires Inv(s) && newTask !in s.tasks && FieldsMove(s, f, newTask)
    requires FrameOk(f, Moved(s, f, newTask, c, frame).tasks, frame)
    ensures Inv(Moved(s, f, newTask, c, frame))
  {
    var t := Moved(s, f, newTask, c, frame);
    forall d | d in t.frames ensures FrameOk(t.f, t.tasks, t.frames[d]) {
      if d != c { assert FrameOk(s.f, s.tasks, s.frames[d]); }
    }
  }

  lemma OnwardsKeepsInv(s: State, f: Fields, c: CallerId, goal: Goal, replayed: bool, newTask: TaskId)
    requires Inv(s) && newTask !in s.tasks && f == s.f && f.reservation.Some?
    ensures Inv(Onwards(s, f, c, goal, replayed, newTask))
  {
    var t := Onwards(s, f, c, goal, replayed, newTask);
    MoveKeepsInv(s, t.f, newTask, c, t.frames[c]);
  }

  lemma ReserveKeepsInv(s: State, c: CallerId, r: (Fields, Next), goal: Goal, replayed: bool, newTask: TaskId)
    requires Inv(s) && newTask !in s.tasks && FieldsMove(s, r.0, newTask) && r.0.slot == s.f.slot
    requires r.1.AwaitReservation? ==> r.0.reservationTask == Some(r.1.task)
    requires r.1.Return? ==> r.0 == s.f && r.0.reservation.Some?
    ensures Inv(AfterReserve(s, c, r, goal, replayed, newTask))
  {
    if r.1.Return? {
      OnwardsKeepsInv(s, r.0, c, goal, replayed, newTask);
    } else {
      MoveKeepsInv(s, r.0, newTask, c, AfterReserve(s, c, r, goal, replayed, newTask).frames[c]);
    }
  }

  lemma SettleKeepsInv(s: State, c: CallerId, r: (Fields, Next), own: Kind, raising: bool, newTask: TaskId)
    requires Inv(s) && newTask !in s.tasks && FieldsMove(s, r.0, newTask)
    requires r.1.AwaitReservation? ==> r.0.reservationTask == Some(r.1.task)
    requires r.1.AwaitSettlement? ==> r.0.slot == Some(r.1.slot)
    requires r.1.Return? ==> r.0.closed && r.0.result == Some(r.1.result)
    ensures Inv(AfterSettle(s, c, r, own, raising, newTask))
  {
    MoveKeepsInv(s, r.0, newTask, c, AfterSettle(s, c, r, own, raising, newTask).frames[c]);
  }

  lemma ResumeKeepsInv(s: State, c: CallerId, cancelled: bool, replayed: bool, newTask: TaskId)
    requires Inv(s) && c in s.frames && newTask !in s.tasks
    ensures Inv(Resumed(s, c, cancelled, replayed, newTask))
  {
    assert FrameOk(s.f, s.tasks, s.frames[c]);
    match s.frames[c]
    case Reserving(task, goal) =>
      if CanResume(s, task, cancelled) {
        ReserveKeepsInv(s, c, ReserveResumed(s.f, task, s.tasks[task].status, cancelled), goal, replayed, newTask);
      }
    case Settling(task, joined, own, raising) =>
      if CanResume(s, task, cancelled) {
        var status := s.tasks[task].status;
        if own.Confirm? {
          SettleKeepsInv(s, c, ConfirmResumed(s.f, task, status, cancelled), own, raising, newTask);
        } else {
          SettleKeepsInv(s, c, FailResumed(s.f, task, joined, status, cancelled, newTask), own, raising, newTask);
        }
      }
    case _ =>
  }

  /** A live task moves on without succeeding. */
  lemma TaskMoveKeepsInv(s: State, task: TaskId, status: Status<Result>)
    requires Inv(s) && task in s.tasks && s.tasks[task].status.Live() && !status.Succeeded?
    ensures Inv(s.(tasks := s.tasks[task := s.tasks[task].(status := status)]))
  {
    var t := s.(tasks := s.tasks[task := s.tasks[task].(status := status)]);
    forall d | d in t.frames ensures FrameOk(t.f, t.tasks, t.frames[d]) {
      assert FrameOk(s.f, s.tasks, s.frames[d]);
    }
  }

  lemma SuccessKeepsInv(s: State, task: TaskId, result: Result)
    requires Inv(s) && task in s.tasks && s.tasks[task].status.Live()
    ensures Inv(Replied(s, task, Some(result)))
  {
    var t := Replied(s, task, Some(result));
    assert !s.f.closed || s.tasks[task].ReserveTask?;
    forall d | d in t.frames ensures FrameOk(t.f, t.tasks, t.frames[d]) {
      assert FrameOk(s.f, s.tasks, s.frames[d]);
    }
  }

  lemma TaskStepKeepsInv(s: State, a: Action)
    requires Inv(s) && (a.Send? || a.Reply? || a.CancelTask?)
    ensures Inv(Step(s, a))
  {
    if a.task in s.tasks && s.tasks[a.task].status.Live() {
      match a
      case Send(task) => TaskMoveKeepsInv(s, task, Outstanding);
      case CancelTask(task) => TaskMoveKeepsInv(s, task, Cancelled);
      case Reply(task, result) =>
        if result.Some? { SuccessKeepsInv(s, task, result.value); } else { TaskMoveKeepsInv(s, task, Failed); }
    }
  }

  lemma StepKeepsInv(s: State, a: Action)
    requires Inv(s)
    ensures Inv(Step(s, a))
  {
    match a
    case CallReserve(c, newTask) =>
      if c !in s.frames && newTask !in s.tasks { ReserveKeepsInv(s, c, ReserveCalled(s.f, newTask), Reserve, false, newTask); }
    case CallSettle(c, kind, newTask) =>
      if c !in s.frames && newTask !in s.tasks { SettleKeepsInv(s, c, SettleCalled(s.f, kind, newTask), kind, false, newTask); }
    case CallCall(c, newTask, replayed) =>
      if c !in s.frames && newTask !in s.tasks { ReserveKeepsInv(s, c, ReserveCalled(s.f, newTask), Call, replayed, newTask); }
    case Resume(c, cancelled, replayed, newTask) =>
      if c in s.frames && newTask !in s.tasks { ResumeKeepsInv(s, c, cancelled, replayed, newTask); }
    case FunctionEnds(c, ok, newTask) =>
      if c in s.frames && newTask !in s.tasks {
        var kind := if ok then Confirm else Fail;
        SettleKeepsInv(s, c, SettleCalled(s.f, kind, newTask), kind, !ok, newTask);
      }
    case _ => TaskStepKeepsInv(s, a);
  }

  /**
   Over every run: never two reservations and never two settlements outstanding,
   no settlement before a recorded reservation, no fail beside an outstanding or
   successful confirm, at most one settlement succeeds, and every normal return
   carries the result of that one.
   */
  lemma EffectIsSafe(actions: seq<Action>)
    ensures Safe(Runs.Run(Step, Initial(), actions))
  {
    RunKeepsInv(Initial(), actions);
    InvImpliesSafe(Runs.Run(Step, Initial(), actions));
  }

  lemma {:induction false} RunKeepsInv(s: State, actions: seq<Action>)
    requires Inv(s)
    ensures Inv(Runs.Run(Step, s, actions))
    decreases |actions|
  {
    if actions != [] {
      var front := actions[..|actions| - 1];
      RunKeepsInv(s, front);
      StepKeepsInv(Runs.Run(Step, s, front), actions[|actions| - 1]);
    }
  }

  // ------------------------------------------------ settlement is final

  ghost predicate Settled(f: Fields, tasks: map<TaskId, Task>, f': Fields, tasks': map<TaskId, Task>) {
    f.closed ==> f'.closed && f'.result == f.result && f'.slot == f.slot
                 && forall t :: t in tasks' && tasks'[t].SettleTask? ==> t in tasks && tasks'[t] == tasks[t]
  }

  ghost predicate Final(s: State, t: State) {
    Settled(s.f, s.tasks, t.f, t.tasks)
  }

  lemma ClosedStepKeepsResult(s: State, a: Action)
    requires Inv(s) && s.f.closed
    ensures Final(s, Step(s, a))
  {
    if a.Resume? && a.c in s.frames { assert FrameOk(s.f, s.tasks, s.frames[a.c]); }
  }

  /** Once closed, the result never changes and no settlement is ever started or settled again. */
  lemma EffectIsFinal(before: seq<Action>, later: seq<Action>)
    ensures Final(Runs.Run(Step, Initial(), before), Runs.Run(Step, Initial(), before + later))
  {
    var s := Runs.Run(Step, Initial(), before);
    RunKeepsInv(Initial(), before);
    if s.f.closed { ClosedRunKeepsResult(s, later); }
    Runs.RunComposes(Step, Initial(), before, later);
  }

  lemma FinalComposes(s: State, t: State, u: State)
    requires s.f.closed && Final(s, t) && Final(t, u)
    ensures Final(s, u)
  {
  }

  lemma {:induction false} ClosedRunKeepsResult(s: State, actions: seq<Action>)
    requires Inv(s) && s.f.closed
    ensures Final(s, Runs.Run(Step, s, actions))
    decreases |actions|
  {
    if actions != [] {
      var front := actions[..|actions| - 1];
      var t := Runs.Run(Step, s, front);
      ClosedRunKeepsResult(s, front);
      RunKeepsInv(s, front);
      ClosedStepKeepsResult(t, actions[|actions| - 1]);
      FinalComposes(s, t, Runs.Run(Step, s, actions));
    }
  }

  // ------------------------------------------------ what the calls report

  /** The settlement that a call made now ends up with: the one in the slot, or its own. */
  function SettledWith(f: Fields, own: Kind, newTask: TaskId): Slot {
    if f.slot.Some? then f.slot.value else Slot(newTask, own)
  }

  /** A caller's settlement is sent and answered, and the caller resumed. */
  function Answered(s: State, task: TaskId, answer: Option<Result>, c: CallerId, nextTask: TaskId): State {
    Step(Step(Step(s, Send(task)), Reply(task, answer)), Resume(c, false, false, nextTask))
  }

  /** A `confirm` or `fail` that nobody interferes with: called, its settlement sent and answered, and resumed. */
  function Undisturbed(s: State, c: CallerId, own: Kind, newTask: TaskId, nextTask: TaskId, result: Result): State {
    Answered(Step(s, CallSettle(c, own, newTask)), SettledWith(s.f, own, newTask).task, Some(result), c, nextTask)
  }

  predicate SlotBroken(s: State) {
    s.f.slot.Some? && s.f.slot.value.task in s.tasks && s.tasks[s.f.slot.value.task].status.Broken()
  }

  predicate CanCall(s: State, c: CallerId, newTask: TaskId, nextTask: TaskId) {
    c !in s.frames && newTask !in s.tasks && nextTask !in s.tasks && nextTask != newTask
  }

  /** On an open, reserved effect with a free slot, `confirm` starts a confirm and `fail` a fail. */
  lemma SettleStartsItsKind(s: State, c: CallerId, kind: Kind, newTask: TaskId)
    requires c !in s.frames && newTask !in s.tasks && s.f.reservation.Some? && !s.f.closed && s.f.slot.None?
    requires s.f.reservationTask != Some(newTask)
    ensures Step(s, CallSettle(c, kind, newTask)).tasks == s.tasks[newTask := SettleTask(kind, Scheduled)]
    ensures Step(s, CallSettle(c, kind, newTask)).frames == s.frames[c := Settling(newTask, kind, kind, false)]
  {
  }

  lemma ClosedReports(s: State, c: CallerId, own: Kind, newTask: TaskId, nextTask: TaskId, result: Result)
    requires Inv(s) && c !in s.frames && newTask !in s.tasks && s.f.closed
    ensures var t := Undisturbed(s, c, own, newTask, nextTask, result);
            t.frames == s.frames[c := Returned(s.f.result.value)] && t.tasks == s.tasks
  {
  }

  /** Called on a slot that holds a broken settlement, either call awaits that one first. */
  lemma BrokenSlotCall(s: State, c: CallerId, own: Kind, newTask: TaskId, result: Result)
    requires Inv(s) && c !in s.frames && newTask !in s.tasks && s.f.reservation.Some? && SlotBroken(s)
    ensures var slot := s.f.slot.value;
            var s1 := Step(s, CallSettle(c, own, newTask));
            && s1 == s.(frames := s.frames[c := Settling(slot.task, slot.kind, own, false)])
            && Step(Step(s1, Send(slot.task)), Reply(slot.task, Some(result))) == s1
  {
  }

  lemma BrokenSlotConfirm(s: State, c: CallerId, newTask: TaskId, nextTask: TaskId, result: Result)
    requires Inv(s) && CanCall(s, c, newTask, nextTask) && s.f.reservation.Some? && SlotBroken(s)
    ensures var t := Undisturbed(s, c, Confirm, newTask, nextTask, result);
            c in t.frames && t.frames[c] == Raised && t.tasks == s.tasks && t.f.slot.None?
  {
    BrokenSlotCall(s, c, Confirm, newTask, result);
  }

  lemma BrokenSlotFail(s: State, c: CallerId, newTask: TaskId, nextTask: TaskId, result: Result)
    requires Inv(s) && CanCall(s, c, newTask, nextTask) && s.f.reservation.Some? && SlotBroken(s)
    ensures var t := Undisturbed(s, c, Fail, newTask, nextTask, result);
            if s.f.slot.value.kind.Confirm?
            then t.frames == s.frames[c := Settling(nextTask, Fail, Fail, false)]
                 && t.tasks == s.tasks[nextTask := SettleTask(Fail, Scheduled)]
            else t.frames == s.frames[c := Raised] && t.tasks == s.tasks && t.f.slot.None?
  {
    BrokenSlotCall(s, c, Fail, newTask, result);
  }

  /** A caller that awaits a live settlement in the slot ends with its result, or with the function's error. */
  lemma WaiterEnds(s: State, c: CallerId, slot: Slot, own: Kind, raising: bool, nextTask: TaskId, result: Result)
    requires s.f.slot == Some(slot) && slot.task in s.tasks && s.tasks[slot.task].SettleTask?
    requires s.tasks[slot.task].kind == slot.kind && s.tasks[slot.task].status.Live()
    requires c in s.frames && s.frames[c] == Settling(slot.task, slot.kind, own, raising) && nextTask !in s.tasks
    requires s.f.reservationTask != Some(nextTask)
    ensures var t := Answered(s, slot.task, Some(result), c, nextTask);
            && t.frames == s.frames[c := if raising then Raised else Returned(result)]
            && t.tasks == s.tasks[slot.task := SettleTask(slot.kind, Succeeded(result))]
            && t.f.closed && t.f.result == Some(result)
  {
    var s2 := Step(s, Send(slot.task));
    assert s2.tasks[slot.task] == SettleTask(slot.kind, Outstanding);
    var s3 := Step(s2, Reply(slot.task, Some(result)));
    assert s3.tasks[slot.task] == SettleTask(slot.kind, Succeeded(result)) && s3.frames == s.frames;
  }

  lemma LiveSlotReports(s: State, c: CallerId, own: Kind, newTask: TaskId, nextTask: TaskId, result: Result)
    requires Inv(s) && CanCall(s, c, newTask, nextTask) && s.f.reservation.Some? && !s.f.closed && !SlotBroken(s)
    ensures var t, slot := Undisturbed(s, c, own, newTask, nextTask, result), SettledWith(s.f, own, newTask);
            && t.frames == s.frames[c := Returned(result)] && nextTask !in t.tasks
            && slot.task in t.tasks && t.tasks[slot.task] == SettleTask(slot.kind, Succeeded(result))
  {
    var slot := SettledWith(s.f, own, newTask);
    var s1 := Step(s, CallSettle(c, own, newTask));
    assert s1.frames == s.frames[c := Settling(slot.task, slot.kind, own, false)] && s1.f.slot == Some(slot);
    assert s1.tasks[slot.task].SettleTask? && s1.tasks[slot.task].kind == slot.kind && s1.tasks[slot.task].status.Live();
    WaiterEnds(s1, c, slot, own, false, nextTask, result);
  }

  /**
   What an undisturbed `confirm` reports, in every state of the helper.  It raises
   if and only if the slot holds a settlement that broke; otherwise it returns
   the one settlement's result, which is a confirm's if and only if the slot was
   free or held a confirm.  On an effect that failed, or is failing, it reports
   the fail as its own success.
   */
  lemma ConfirmReportsWhatSettles(s: State, c: CallerId, newTask: TaskId, nextTask: TaskId, result: Result)
    requires Inv(s) && CanCall(s, c, newTask, nextTask) && s.f.reservation.Some?
    ensures var t, slot := Undisturbed(s, c, Confirm, newTask, nextTask, result), SettledWith(s.f, Confirm, newTask);
            && c in t.frames
            && (t.frames[c] == Raised <==> SlotBroken(s))
            && (!SlotBroken(s) ==>
                  && t.frames[c] == Returned(if s.f.closed then s.f.result.value else result)
                  && slot.task in t.tasks && t.tasks[slot.task].SettleTask?
                  && t.tasks[slot.task].status == Succeeded(t.frames[c].result)
                  && (t.tasks[slot.task].kind.Confirm? <==> s.f.slot.None? || s.f.slot.value.kind.Confirm?))
  {
    if s.f.closed {
      ClosedReports(s, c, Confirm, newTask, nextTask, result);
    } else if SlotBroken(s) {
      BrokenSlotConfirm(s, c, newTask, nextTask, result);
    } else {
      LiveSlotReports(s, c, Confirm, newTask, nextTask, result);
    }
  }

  /**
   What an undisturbed `fail` reports, in every state of the helper.  Behind a
   broken confirm it goes on with a fail of its own; behind a broken fail it
   raises; otherwise it returns the one settlement's result, which is a fail's
   if and only if the slot was free or held a fail.
   */
  lemma FailReportsWhatSettles(s: State, c: CallerId, newTask: TaskId, nextTask: TaskId, result: Result)
    requires Inv(s) && CanCall(s, c, newTask, nextTask) && s.f.reservation.Some?
    ensures var t, slot := Undisturbed(s, c, Fail, newTask, nextTask, result), SettledWith(s.f, Fail, newTask);
            && c in t.frames
            && (t.frames[c] == Raised <==> SlotBroken(s) && s.f.slot.value.kind.Fail?)
            && (t.frames[c] == Settling(nextTask, Fail, Fail, false) <==> SlotBroken(s) && s.f.slot.value.kind.Confirm?)
            && (nextTask in t.tasks <==> SlotBroken(s) && s.f.slot.value.kind.Confirm?)
            && (nextTask in t.tasks ==> t.tasks[nextTask] == SettleTask(Fail, Scheduled))
            && (!SlotBroken(s) ==>
                  && t.frames[c] == Returned(if s.f.closed then s.f.result.value else result)
                  && slot.task in t.tasks && t.tasks[slot.task].SettleTask?
                  && t.tasks[slot.task].status == Succeeded(t.frames[c].result)
                  && (t.tasks[slot.task].kind.Fail? <==> s.f.slot.None? || s.f.slot.value.kind.Fail?))
  {
    if s.f.closed {
      ClosedReports(s, c, Fail, newTask, nextTask, result);
    } else if SlotBroken(s) {
      BrokenSlotFail(s, c, newTask, nextTask, result);
    } else {
      LiveSlotReports(s, c, Fail, newTask, nextTask, result);
    }
  }

  /** A `fail` that joined a confirm moves on when the confirm breaks, unless its own caller is cancelled before. */
  lemma FailTakesOver(s: State, c: CallerId, cancelled: bool, newTask: TaskId)
    requires Inv(s) && c in s.frames && s.frames[c].Settling? && s.frames[c].own.Fail? && s.frames[c].joined.Confirm?
    requires newTask !in s.tasks
    requires s.tasks[s.frames[c].task].status.Cancelled? || (s.tasks[s.frames[c].task].status.Failed? && !cancelled)
    ensures var t := Step(s, Resume(c, cancelled, false, newTask));
            && t.frames[c].Settling? && t.frames[c].task != s.frames[c].task && t.frames[c].own.Fail?
            && t.frames[c].raising == s.frames[c].raising
            && t.f.slot == Some(Slot(t.frames[c].task, t.frames[c].joined))
            && (t.frames[c].task == newTask ==> t.tasks == s.tasks[newTask := SettleTask(Fail, Scheduled)])
            && (t.frames[c].task != newTask ==> t.tasks == s.tasks)
  {
    assert FrameOk(s.f, s.tasks, s.frames[c]);
  }

  /** A caller that is cancelled while its settlement is under way raises and leaves the settlement alone. */
  lemma CancelledCallerLeavesSettlement(s: State, c: CallerId, newTask: TaskId)
    requires Inv(s) && c in s.frames && newTask !in s.tasks
    requires s.frames[c].Settling? && s.tasks[s.frames[c].task].status.Live()
    ensures Step(s, Resume(c, true, false, newTask)) == s.(frames := s.frames[c := Raised])
  {
    assert FrameOk(s.f, s.tasks, s.frames[c]);
  }

  // ------------------------------------------------ `call`

  /** With its reservation made, `call` runs the function unless the effect is replayed, and starts no task. */
  lemma CallRunsOrReplays(s: State, c: CallerId, newTask: TaskId, replayed: bool)
    requires Inv(s) && c !in s.frames && newTask !in s.tasks && s.f.reservation.Some?
    ensures Step(s, CallCall(c, newTask, replayed)) == s.(frames := s.frames[c := if replayed then Replayed else Running])
  {
  }

  /** A replayed call is over: nothing moves it again. */
  lemma ReplayRunsNothing(s: State, a: Action, c: CallerId)
    requires c in s.frames && s.frames[c].Replayed?
    ensures c in Step(s, a).frames && Step(s, a).frames[c].Replayed?
  {
  }

  /** On an open effect with a free slot, a function that ended well is confirmed and one that raised is failed. */
  lemma FunctionSettles(s: State, c: CallerId, ok: bool, newTask: TaskId)
    requires Inv(s) && c in s.frames && s.frames[c].Running? && newTask !in s.tasks && !s.f.closed && s.f.slot.None?
    ensures var kind := if ok then Confirm else Fail;
            var t := Step(s, FunctionEnds(c, ok, newTask));
            && t.tasks == s.tasks[newTask := SettleTask(kind, Scheduled)]
            && t.frames == s.frames[c := Settling(newTask, kind, kind, !ok)]
            && t.f.slot == Some(Slot(newTask, kind))
  {
    assert FrameOk(s.f, s.tasks, s.frames[c]);
  }

  /** Undisturbed, `call` then returns exactly when its function did. */
  lemma CallEndsAsItsFunction(s: State, c: CallerId, ok: bool, newTask: TaskId, nextTask: TaskId, result: Result)
    requires Inv(s) && c in s.frames && s.frames[c].Running? && !s.f.closed && s.f.slot.None?
    requires newTask !in s.tasks && nextTask !in s.tasks && nextTask != newTask
    ensures var t := Answered(Step(s, FunctionEnds(c, ok, newTask)), newTask, Some(result), c, nextTask);
            && t.frames == s.frames[c := if ok then Returned(result) else Raised]
            && t.tasks == s.tasks[newTask := SettleTask(if ok then Confirm else Fail, Succeeded(result))]
  {
    var kind := if ok then Confirm else Fail;
    FunctionSettles(s, c, ok, newTask);
    var s1 := Step(s, FunctionEnds(c, ok, newTask));
    StepKeepsInv(s, FunctionEnds(c, ok, newTask));
    WaiterEnds(s1, c, Slot(newTask, kind), kind, !ok, nextTask, result);
    assert s1.tasks[newTask := SettleTask(kind, Succeeded(result))] == s.tasks[newTask := SettleTask(kind, Succeeded(result))];
  }

  // ------------------------------------------------ `reserve`

  /** A recorded reservation is handed out without a task; otherwise one task is shared or started. */
  lemma ReserveAnswers(s: State, c: CallerId, newTask: TaskId)
    requires Inv(s) && c !in s.frames && newTask !in s.tasks
    ensures var t := Step(s, CallReserve(c, newTask));
            && (s.f.reservation.Some? ==> t == s.(frames := s.frames[c := Reserved]))
            && (s.f.reservation.None? && s.f.reservationTask.Some? ==>
                  t == s.(frames := s.frames[c := Reserving(s.f.reservationTask.value, Reserve)]))
            && (s.f.reservation.None? && s.f.reservationTask.None? ==>
                  && t.tasks == s.tasks[newTask := ReserveTask(Scheduled)]
                  && t.frames == s.frames[c := Reserving(newTask, Reserve)])
  {
  }

  /** Whoever awaits the shared reservation gets it when it succeeds; a broken one is forgotten, so that a retry makes a new one. */
  lemma ReservationEnds(s: State, c: CallerId, newTask: TaskId)
    requires Inv(s) && c in s.frames && s.frames[c].Reserving? && s.frames[c].goal.Reserve? && newTask !in s.tasks
    requires s.tasks[s.frames[c].task].status.Done()
    ensures var t := Step(s, Resume(c, false, false, newTask));
            && t.tasks == s.tasks
            && (s.tasks[s.frames[c].task].status.Succeeded? ==> t == s.(frames := s.frames[c := Reserved]) && s.f.reservation.Some?)
            && (s.tasks[s.frames[c].task].status.Broken() ==>
                  && t.frames == s.frames[c := Raised]
                  && t.f.reservationTask == (if s.f.reservationTask == Some(s.frames[c].task) then None else s.f.reservationTask))
  {
    assert FrameOk(s.f, s.tasks, s.frames[c]);
  }

  // ------------------------------------------------ where settlements come from

  function Reached(actions: seq<Action>): State { Runs.Run(Step, Initial(), actions) }

  /** The kinds of settlement that an action asks for. */
  function AskedBy(s: State, a: Action): set<Kind> {
    match a
    case CallSettle(c, kind, _) => {kind}
    case FunctionEnds(c, ok, _) =>
      if c !in s.frames || !s.frames[c].Running? then {} else if ok then {Confirm} else {Fail}
    case _ => {}
  }

  function Asked(actions: seq<Action>): set<Kind>
    decreases |actions|
  {
    if actions == [] then {}
    else
      var n := |actions| - 1;
      Asked(actions[..n]) + AskedBy(Reached(actions[..n]), actions[n])
  }

  predicate FrameAsks(frame: Frame, kinds: set<Kind>) {
    && (frame.Settling? ==> frame.own in kinds)
    && (frame.Reserving? && frame.goal.Settle? ==> frame.goal.kind in kinds)
  }

  /** Only settlements of these kinds exist or are on their way. */
  ghost predicate OnlyKinds(s: State, kinds: set<Kind>) {
    && (forall t :: t in s.tasks && s.tasks[t].SettleTask? ==> s.tasks[t].kind in kinds)
    && (forall c :: c in s.frames ==> FrameAsks(s.frames[c], kinds))
  }

  /** New fields name a new settlement only of one of these kinds. */
  predicate NamesKind(f: Fields, newTask: TaskId, kinds: set<Kind>) {
    f.slot.Some? && f.slot.value.task == newTask ==> f.slot.value.kind in kinds
  }

  lemma MoveKeepsKinds(s: State, f: Fields, newTask: TaskId, c: CallerId, frame: Frame, kinds: set<Kind>)
    requires OnlyKinds(s, kinds) && FrameAsks(frame, kinds) && NamesKind(f, newTask, kinds)
    ensures OnlyKinds(Moved(s, f, newTask, c, frame), kinds)
  {
    var t := Moved(s, f, newTask, c, frame);
    forall d | d in t.frames ensures FrameAsks(t.frames[d], kinds) {
      if d != c { assert FrameAsks(s.frames[d], kinds); }
    }
  }

  lemma ReserveKeepsKinds(s: State, c: CallerId, r: (Fields, Next), goal: Goal, replayed: bool, newTask: TaskId, kinds: set<Kind>)
    requires OnlyKinds(s, kinds) && NamesKind(r.0, newTask, kinds) && (goal.Settle? ==> goal.kind in kinds)
    ensures OnlyKinds(AfterReserve(s, c, r, goal, replayed, newTask), kinds)
  {
    var t := AfterReserve(s, c, r, goal, replayed, newTask);
    MoveKeepsKinds(s, t.f, newTask, c, t.frames[c], kinds);
  }

  lemma SettleKeepsKinds(s: State, c: CallerId, r: (Fields, Next), own: Kind, raising: bool, newTask: TaskId, kinds: set<Kind>)
    requires OnlyKinds(s, kinds) && NamesKind(r.0, newTask, kinds) && own in kinds
    ensures OnlyKinds(AfterSettle(s, c, r, own, raising, newTask), kinds)
  {
    MoveKeepsKinds(s, r.0, newTask, c, AfterSettle(s, c, r, own, raising, newTask).frames[c], kinds);
  }

  lemma ResumeKeepsKinds(s: State, c: CallerId, cancelled: bool, replayed: bool, newTask: TaskId, kinds: set<Kind>)
    requires Inv(s) && OnlyKinds(s, kinds) && c in s.frames && newTask !in s.tasks
    ensures OnlyKinds(Resumed(s, c, cancelled, replayed, newTask), kinds)
  {
    assert FrameAsks(s.frames[c], kinds);
    match s.frames[c]
    case Reserving(task, goal) =>
      if CanResume(s, task, cancelled) {
        ReserveKeepsKinds(s, c, ReserveResumed(s.f, task, s.tasks[task].status, cancelled), goal, replayed, newTask, kinds);
      }
    case Settling(task, joined, own, raising) =>
      if CanResume(s, task, cancelled) {
        var status := s.tasks[task].status;
        if own.Confirm? {
          SettleKeepsKinds(s, c, ConfirmResumed(s.f, task, status, cancelled), own, raising, newTask, kinds);
        } else {
          SettleKeepsKinds(s, c, FailResumed(s.f, task, joined, status, cancelled, newTask), own, raising, newTask, kinds);
        }
      }
    case _ =>
  }

  lemma TaskStepKeepsKinds(s: State, a: Action, kinds: set<Kind>)
    requires OnlyKinds(s, kinds) && (a.Send? || a.Reply? || a.CancelTask?)
    ensures OnlyKinds(Step(s, a), kinds)
  {
    var t := Step(s, a);
    assert t.frames == s.frames && t.tasks.Keys == s.tasks.Keys;
    forall task | task in t.tasks && t.tasks[task].SettleTask? ensures t.tasks[task].kind in kinds {
      assert task in s.tasks && s.tasks[task].SettleTask? && t.tasks[task].kind == s.tasks[task].kind;
    }
  }

  lemma MoreKinds(s: State, kinds: set<Kind>, more: set<Kind>)
    requires OnlyKinds(s, kinds)
    ensures OnlyKinds(s, kinds + more)
  {
    forall c | c in s.frames ensures FrameAsks(s.frames[c], kinds + more) {
      assert FrameAsks(s.frames[c], kinds);
    }
  }

  lemma StepKeepsKinds(s: State, a: Action, kinds: set<Kind>)
    requires Inv(s) && OnlyKinds(s, kinds)
    ensures OnlyKinds(Step(s, a), kinds + AskedBy(s, a))
  {
    var all := kinds + AskedBy(s, a);
    MoreKinds(s, kinds, AskedBy(s, a));
    match a
    case CallReserve(c, newTask) =>
      if c !in s.frames && newTask !in s.tasks { ReserveKeepsKinds(s, c, ReserveCalled(s.f, newTask), Reserve, false, newTask, all); }
    case CallSettle(c, kind, newTask) =>
      if c !in s.frames && newTask !in s.tasks { SettleKeepsKinds(s, c, SettleCalled(s.f, kind, newTask), kind, false, newTask, all); }
    case CallCall(c, newTask, replayed) =>
      if c !in s.frames && newTask !in s.tasks { ReserveKeepsKinds(s, c, ReserveCalled(s.f, newTask), Call, replayed, newTask, all); }
    case Resume(c, cancelled, replayed, newTask) =>
      if c in s.frames && newTask !in s.tasks { ResumeKeepsKinds(s, c, cancelled, replayed, newTask, all); }
    case FunctionEnds(c, ok, newTask) =>
      if c in s.frames && s.frames[c].Running? && newTask !in s.tasks {
        var kind := if ok then Confirm else Fail;
        SettleKeepsKinds(s, c, SettleCalled(s.f, kind, newTask), kind, !ok, newTask, all);
      }
    case _ => TaskStepKeepsKinds(s, a, all);
  }

  /**
   Over every run: a confirm exists only if somebody called `confirm` or a
   function under `call` ended well, a fail only if somebody called `fail` or
   such a function raised.
   */
  lemma {:induction false} SettlementsWereAskedFor(actions: seq<Action>)
    ensures OnlyKinds(Reached(actions), Asked(actions))
    decreases |actions|
  {
    if actions != [] {
      var n := |actions| - 1;
      SettlementsWereAskedFor(actions[..n]);
      RunKeepsInv(Initial(), actions[..n]);
      StepKeepsKinds(Reached(actions[..n]), actions[n], Asked(actions[..n]));
    }
  }

  // ------------------------------------------------ a confirm that reports a fail

  /** A fail under way: its reservation made, its settlement scheduled as task 1. */
  function FailUnderWay(): State {
    State(Fields(Some(5), Some(0), false, None, Some(Slot(1, Fail))),
          map[0 := ReserveTask(Succeeded(5)), 1 := SettleTask(Fail, Scheduled)], map[0 := Settling(1, Fail, Fail, false)])
  }

  lemma FailGetsUnderWay(actions: seq<Action>)
    requires actions == [CallSettle(0, Fail, 0), Send(0), Reply(0, Some(5)), Resume(0, false, false, 1)]
    ensures Runs.Run(Step, Initial(), actions) == FailUnderWay()
  {
    var f := Fields(None, Some(0), false, None, None);
    var frames := map[0 := Reserving(0, Settle(Fail))];
    var s1 := State(f, map[0 := ReserveTask(Scheduled)], frames);
    var s2 := State(f, map[0 := ReserveTask(Outstanding)], frames);
    var s3 := State(f.(reservation := Some(5)), map[0 := ReserveTask(Succeeded(5))], frames);
    assert Step(Initial(), actions[0]) == s1;
    assert Step(s1, actions[1]) == s2;
    assert Step(s2, actions[2]) == s3;
    assert Step(s3, actions[3]) == FailUnderWay();
    Runs.RunAlong(Step, [Initial(), s1, s2, s3, FailUnderWay()], actions);
  }

  /** A run from the start in which a `confirm` joins a fail under way and returns the fail's result. */
  lemma ConfirmReturnsAFail() returns (actions: seq<Action>)
    ensures var s := Runs.Run(Step, Initial(), actions);
            1 in s.frames && s.frames[1] == Returned(7) && 1 in s.tasks && s.tasks[1] == SettleTask(Fail, Succeeded(7))
  {
    var first := [CallSettle(0, Fail, 0), Send(0), Reply(0, Some(5)), Resume(0, false, false, 1)];
    var second := [CallSettle(1, Confirm, 2), Send(1), Reply(1, Some(7)), Resume(1, false, false, 3)];
    actions := first + second;
    FailGetsUnderWay(first);
    RunKeepsInv(Initial(), first);
    Runs.RunComposes(Step, Initial(), first, second);
    UndisturbedIsARun(FailUnderWay(), second);
    LiveSlotReports(FailUnderWay(), 1, Confirm, 2, 3, 7);
  }

  lemma UndisturbedIsARun(s: State, actions: seq<Action>)
    requires s.f.slot == Some(Slot(1, Fail))
    requires actions == [CallSettle(1, Confirm, 2), Send(1), Reply(1, Some(7)), Resume(1, false, false, 3)]
    ensures Runs.Run(Step, s, actions) == Undisturbed(s, 1, Confirm, 2, 3, 7)
  {
    var s1 := Step(s, actions[0]);
    var s2 := Step(s1, actions[1]);
    var s3 := Step(s2, actions[2]);
    Runs.RunAlong(Step, [s, s1, s2, s3, Step(s3, actions[3])], actions);
  }

  /** Without a reservation nothing has been settled and nothing is: the slot is free and the effect open. */
  lemma UnreservedIsOpen(s: State)
    requires Inv(s) && s.f.reservation.None?
    ensures s.f.slot.None? && !s.f.closed
  {
  }

  function ReservesWith(f: Fields, newTask: TaskId): TaskId {
    if f.reservationTask.Some? then f.reservationTask.value else newTask
  }

  predicate ReservationBroken(s: State) {
    s.f.reservationTask.Some? && s.f.reservationTask.value in s.tasks && s.tasks[s.f.reservationTask.value].status.Broken()
  }

  /**
   A `confirm` or `fail` that has to reserve first, undisturbed, raises if the shared
   reservation is known to be broken, and otherwise goes on to a settlement of its own.
   */
  lemma UnreservedCallStartsItsOwn(s: State, c: CallerId, own: Kind, newTask: TaskId, nextTask: TaskId, reservation: Result)
    requires Inv(s) && CanCall(s, c, newTask, nextTask) && s.f.reservation.None?
    ensures var task := ReservesWith(s.f, newTask);
            var t := Answered(Step(s, CallSettle(c, own, newTask)), task, Some(reservation), c, nextTask);
            && c in t.frames
            && (ReservationBroken(s) ==> t.frames[c] == Raised)
            && (!ReservationBroken(s) ==> t.frames[c] == Settling(nextTask, own, own, false)
                                          && t.f.slot == Some(Slot(nextTask, own)) && t.f.reservation == Some(reservation))
  {
    UnreservedIsOpen(s);
    var task := ReservesWith(s.f, newTask);
    var s1 := Step(s, CallSettle(c, own, newTask));
    assert s1.frames[c] == Reserving(task, Settle(own)) && s1.tasks[task].ReserveTask? && s1.f.slot.None?;
    var s3 := Step(Step(s1, Send(task)), Reply(task, Some(reservation)));
    if !ReservationBroken(s) {
      assert s1.tasks[task].status.Live();
      assert s3.tasks[task] == ReserveTask(Succeeded(reservation)) && s3.frames == s1.frames && s3.f.slot.None?;
    } else {
      assert s3 == s1;
    }
  }

  // ------------------------------------------------ the helper itself

  class AsyncWorkflowEffect {
    var reservation: Option<Result>
    var reservationTask: Option<TaskId>
    var closed: bool
    var result: Option<Result>
    var settlementTask: Option<TaskId>
    var settlementKind: Option<Kind>

    ghost predicate Valid()
      reads this
    {
      settlementTask.Some? <==> settlementKind.Some?
    }

    ghost function View(): Fields
      reads this
      requires Valid()
    {
      Fields(reservation, reservationTask, closed, result,
             if settlementTask.Some? then Some(Slot(settlementTask.value, settlementKind.value)) else None)
    }

    constructor ()
      ensures Valid() && View() == Initial().f
    {
      reservation, reservationTask, closed, result := None, None, false, None;
      settlementTask, settlementKind := None, None;
    }

    /** `reserve` up to its await. */
    method Reserve(newTask: TaskId) returns (next: Next)
      requires Valid()
      modifies `reservationTask
      ensures Valid() && (View(), next) == ReserveCalled(old(View()), newTask)
    {
      if reservation.Some? { return Return(reservation.value); }
      if reservationTask.None? { reservationTask := Some(newTask); }
      return AwaitReservation(reservationTask.value);
    }

    /** `reserve` after its await. */
    method ReserveAfter(task: TaskId, status: Status<Result>, cancelled: bool) returns (next: Next)
      requires Valid() && (cancelled || status.Done())
      modifies `reservationTask
      ensures Valid() && (View(), next) == ReserveResumed(old(View()), task, status, cancelled)
    {
      if cancelled || status.Cancelled? {
        if status.Cancelled? && reservationTask == Some(task) { reservationTask := None; }
        return Raise;
      }
      if status.Succeeded? { return Return(status.result); }
      if reservationTask == Some(task) { reservationTask := None; }
      return Raise;
    }

    /** The point where `confirm` and `fail` join or start a settlement. */
    method Join(kind: Kind, newTask: TaskId) returns (next: Next)
      requires Valid()
      modifies `settlementTask, `settlementKind
      ensures Valid() && (View(), next) == Joined(old(View()), kind, newTask)
    {
      if settlementTask.None? { settlementTask, settlementKind := Some(newTask), Some(kind); }
      return AwaitSettlement(Slot(settlementTask.value, settlementKind.value));
    }

    /** `confirm` and `fail` up to their first await. */
    method Settle(kind: Kind, newTask: TaskId) returns (next: Next)
      requires Valid()
      modifies this
      ensures Valid() && (View(), next) == SettleCalled(old(View()), kind, newTask)
    {
      if closed && result.Some? { return Return(result.value); }
      next := Reserve(newTask);
      if next.Return? { next := Join(kind, newTask); }
    }

    method Clear(task: TaskId)
      requires Valid()
      modifies `settlementTask, `settlementKind
      ensures Valid() && View() == Cleared(old(View()), task)
    {
      if settlementTask == Some(task) { settlementTask, settlementKind := None, None; }
    }

    /** `confirm` after awaiting its settlement. */
    method ConfirmAfter(task: TaskId, status: Status<Result>, cancelled: bool) returns (next: Next)
      requires Valid() && (cancelled || status.Done())
      modifies `settlementTask, `settlementKind
      ensures Valid() && (View(), next) == ConfirmResumed(old(View()), task, status, cancelled)
    {
      if cancelled || status.Cancelled? {
        if status.Cancelled? { Clear(task); }
        return Raise;
      }
      if status.Succeeded? { return Return(status.result); }
      Clear(task);
      return Raise;
    }

    /** `fail` after awaiting a settlement: it returns, raises, or goes round its loop. */
    method FailAfter(task: TaskId, kind: Kind, status: Status<Result>, cancelled: bool, newTask: TaskId)
      returns (next: Next)
      requires Valid() && (cancelled || status.Done())
      modifies `settlementTask, `settlementKind
      ensures Valid() && (View(), next) == FailResumed(old(View()), task, kind, status, cancelled, newTask)
    {
      if (cancelled || status.Cancelled?) && !status.Cancelled? { return Raise; }
      if status.Succeeded? { return Return(status.result); }
      Clear(task);
      if kind.Confirm? { next := Join(Kind.Fail, newTask); } else { next := Raise; }
    }

    /** The settlement task when the server has answered. */
    method Record(settled: Result)
      requires Valid()
      modifies `closed, `result
      ensures Valid() && View() == old(View()).(closed := true, result := Some(settled))
    {
      result := Some(settled);
      closed := true;
    }
  }
}
