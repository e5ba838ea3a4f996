/**
 The wake subscription of `AsyncFlowWakeCoordinator`: subscribers, one pump task,
 one activation task at a time, recovery, waiters and `close`.

 One step is the code between two awaits.  Entering a lock counts as an await.
 The subscription lock is held across an await only while a subscriber acquires
 its client, so every other section under it is one step that needs the lock to
 be free; the sections under the condition contain no await.
 */
module WakeSubscription {
  import opened Common
  import Runs

  datatype Fields = Fields(
    closed: bool, enabled: bool, subscribed: bool,
    acquired: bool, owns: bool,
    generation: nat, error: bool,
    pumpTask: Option<nat>, activationTask: Option<nat>)

  // ------------------------------------------------ the tasks and calls

  datatype Activation = Subscribing | SettingActive | Set(ok: bool) | Broken | ActivationCancelled
  {
    predicate Live() { Subscribing? || SettingActive? }
  }

  datatype Outcome = Gives(ok: bool) | Throws(cancel: bool)

  /** `_activate_once`: at its lock, awaiting the shared task, at the lock of its `finally`. */
  datatype Once = OnceLock | OnceWait(task: nat) | OnceClear(task: nat, outcome: Outcome)

  datatype OnceNext = Goes(once: Once) | Ends(outcome: Outcome)

  datatype Subscriber =
    | FirstLock | Acquiring | Activating(once: Once) | SecondLock | ThirdLock | Returned(ok: bool) | Raised

  datatype Pump =
    | PumpCreated | Listening | EventLock | Pausing | ErrorLock | Sleeping | Recovering(once: Once) | RecoverErrorLock
    | PumpDone

  datatype Closer =
    | CloseWait | SealWait | AwaitTasks(pump: Option<nat>, activation: Option<nat>)
    | ClosingClient | CloseReturned | CloseRaised
  {
    predicate Holds() { SealWait? || AwaitTasks? || ClosingClient? }
  }

  datatype Waiter = AtLock(since: nat) | Suspended(since: nat) | Woken(since: nat, generation: nat)
                  | NotWoken(since: nat) | WaitRaised(since: nat)

  // ------------------------------------------------ stretches of code, on the fields

  function Head(closed: bool): Pump { if closed then PumpDone else Listening }
  function RecoveryHead(closed: bool): Pump { if closed then PumpDone else Sleeping }

  function MarkedSubscribed(f: Fields): (Fields, Subscriber) {
    if f.closed then (f, Returned(false)) else (f.(subscribed := true), ThirdLock)
  }

  function PumpStarted(f: Fields, pumpLive: bool, newPump: nat): Fields {
    if f.closed || pumpLive then f else f.(pumpTask := Some(newPump))
  }

  function AfterClient(f: Fields, usable: bool, pumpLive: bool): Subscriber {
    if !usable then Returned(false)
    else if f.subscribed && pumpLive then Returned(f.enabled)
    else Activating(OnceLock)
  }

  predicate Creates(f: Fields, activationLive: bool) {
    !f.closed && !(f.activationTask.Some? && activationLive)
  }

  function OnceJoined(f: Fields, activationLive: bool, newTask: nat): (Fields, OnceNext) {
    if f.closed then (f, Ends(Gives(false)))
    else if f.activationTask.Some? && activationLive then (f, Goes(OnceWait(f.activationTask.value)))
    else (f.(activationTask := Some(newTask)), Goes(OnceWait(newTask)))
  }

  /** Resuming from the shielded await: the task is done, or the caller was cancelled. */
  function OnceResumed(f: Fields, task: nat, status: Activation, cancelled: bool): OnceNext {
    var outcome :=
      if cancelled || status.ActivationCancelled? then (if f.closed then Gives(false) else Throws(true))
      else if status.Set? then Gives(status.ok)
      else Throws(false);
    if status.Live() then Ends(outcome) else Goes(OnceClear(task, outcome))
  }

  function OnceCleared(f: Fields, task: nat): Fields {
    if f.activationTask == Some(task) then f.(activationTask := None) else f
  }

  function OnceResult(f: Fields, outcome: Outcome): Outcome {
    if outcome.Gives? then Gives(outcome.ok && !f.closed) else outcome
  }

  function SetActive(f: Fields): (Fields, bool) {
    if f.closed then (f, false) else (f.(error := false, enabled := true), true)
  }

  function CloseBegun(f: Fields): Fields { f.(closed := true, enabled := false) }

  function Sealed(f: Fields): Fields { f.(pumpTask := None, activationTask := None, subscribed := false) }

  function WaitCalled(f: Fields, since: nat, positive: bool): Waiter {
    if !f.enabled || !positive then NotWoken(since) else AtLock(since)
  }

  function WaitLocked(f: Fields, since: nat): Waiter {
    if f.generation != since then Woken(since, f.generation)
    else if f.error then WaitRaised(since)
    else if f.closed then NotWoken(since)
    else Suspended(since)
  }

  predicate Ready(f: Fields, since: nat) { f.generation != since || f.error || f.closed }

  function WaitResumed(f: Fields, since: nat, timedOut: bool): Waiter {
    if timedOut then NotWoken(since)
    else if f.error then WaitRaised(since)
    else if f.generation != since then Woken(since, f.generation)
    else NotWoken(since)
  }

  // ------------------------------------------------ the machine

  datatype State = State(
    f: Fields,
    lock: Option<nat>,                       // the subscriber that holds the subscription lock
    activations: seq<Activation>,            // in creation order
    pumps: seq<Pump>,
    subscribers: map<nat, Subscriber>,
    closers: map<nat, Closer>,
    closeLock: Option<nat>,
    waiters: map<nat, Waiter>,
    seal: Option<(nat, nat)>,                // pumps and activations created before close's locked section
    gaveUp: bool,                            // a close was cancelled while it waited to run its locked section
    brokeOff: bool,                          // a close raised the error of an activation that it awaited
    pumped: nat,                             // events pumped
    ownedClients: nat,                       // owned clients acquired
    clientCloses: nat)                       // owned clients closed

  datatype Heard = Event | Nothing | Failure

  datatype Action =
    | Subscribe(i: nat)
    | TakeFirstLock(i: nat, usable: bool)
    | Acquired(i: nat, owned: bool, usable: bool)
    | AcquireFails(i: nat)
    | SubscriberMoves(i: nat, cancelled: bool)
    | PumpMoves(p: nat, heard: Heard, cancelled: bool)
    | ActivationMoves(t: nat, ok: bool, cancelled: bool)
    | Close(i: nat)
    | CloserMoves(i: nat, ok: bool, cancelled: bool)
    | Wait(i: nat, since: nat, positive: bool)
    | WaiterMoves(i: nat, timedOut: bool)

  function Initial(): State {
    State(Fields(false, false, false, false, false, 0, false, None, None), None, [], [], map[], map[], None, map[],
          None, false, false, 0, 0, 0)
  }

  predicate PumpLive(s: State) {
    s.f.pumpTask.Some? && s.f.pumpTask.value < |s.pumps| && !s.pumps[s.f.pumpTask.value].PumpDone?
  }

  predicate ActivationLive(s: State) {
    s.f.activationTask.Some? && s.f.activationTask.value < |s.activations| && s.activations[s.f.activationTask.value].Live()
  }

  /** One step of `_activate_once` for whoever runs it; `None` when it cannot move. */
  function OnceMoves(s: State, once: Once, cancelled: bool): (r: Option<(State, OnceNext)>)
    ensures r.Some? ==> var t := r.value.0;
                        && t.pumps == s.pumps && t.waiters == s.waiters && t.seal == s.seal
                        && t.f.owns == s.f.owns && t.f.generation == s.f.generation
  {
    match once
    case OnceLock =>
      if cancelled then Some((s, Ends(Throws(true))))
      else if s.lock.Some? then None
      else
        var (f, next) := OnceJoined(s.f, ActivationLive(s), |s.activations|);
        var created := if Creates(s.f, ActivationLive(s)) then [Subscribing] else [];
        Some((s.(f := f, activations := s.activations + created), next))
    case OnceWait(task) =>
      if task < |s.activations| && (cancelled || !s.activations[task].Live())
      then Some((s, OnceResumed(s.f, task, s.activations[task], cancelled))) else None
    case OnceClear(task, outcome) =>
      if cancelled then Some((s, Ends(Throws(true))))
      else if s.lock.Some? then None
      else Some((s.(f := OnceCleared(s.f, task)), Ends(OnceResult(s.f, outcome))))
  }

  function SubscriberAfterOnce(next: OnceNext): Subscriber {
    match next
    case Goes(once) => Activating(once)
    case Ends(Gives(ok)) => if ok then SecondLock else Returned(false)
    case Ends(Throws(_)) => Raised
  }

  function PumpAfterOnce(next: OnceNext, closed: bool): Pump {
    match next
    case Goes(once) => Recovering(once)
    case Ends(Gives(ok)) => if ok then Head(closed) else PumpDone
    case Ends(Throws(cancel)) => if cancel then PumpDone else RecoverErrorLock
  }

  function WithSubscriber(s: State, i: nat, x: Subscriber): State { s.(subscribers := s.subscribers[i := x]) }
  function WithCloser(s: State, i: nat, x: Closer): State { s.(closers := s.closers[i := x]) }
  function WithPump(s: State, p: nat, x: Pump): State
    requires p < |s.pumps|
  {
    s.(pumps := s.pumps[p := x])
  }

  function SubscriberStep(s: State, i: nat, cancelled: bool): (r: State)
    requires i in s.subscribers
    ensures r.waiters == s.waiters && r.seal == s.seal && r.gaveUp == s.gaveUp && r.brokeOff == s.brokeOff
    ensures r.f.owns == s.f.owns && r.f.generation == s.f.generation
  {
    match s.subscribers[i]
    case FirstLock => if cancelled then WithSubscriber(s, i, Raised) else s
    case Activating(once) =>
      var moved := OnceMoves(s, once, cancelled);
      if moved.None? then s else WithSubscriber(moved.value.0, i, SubscriberAfterOnce(moved.value.1))
    case SecondLock =>
      if cancelled then WithSubscriber(s, i, Raised)
      else if s.lock.Some? then s
      else var (f, next) := MarkedSubscribed(s.f); WithSubscriber(s.(f := f), i, next)
    case ThirdLock =>
      if cancelled then WithSubscriber(s, i, Raised)
      else if s.lock.Some? then s
      else if s.f.closed then WithSubscriber(s, i, Returned(false))
      else WithSubscriber(StartPump(s), i, Returned(true))
    case _ => s
  }

  function StartPump(s: State): State {
    s.(f := PumpStarted(s.f, PumpLive(s), |s.pumps|),
       pumps := if s.f.closed || PumpLive(s) then s.pumps else s.pumps + [PumpCreated])
  }

  function PumpStep(s: State, p: nat, heard: Heard, cancelled: bool): (r: State)
    requires p < |s.pumps|
    ensures r.waiters == s.waiters && r.seal == s.seal && r.gaveUp == s.gaveUp && r.brokeOff == s.brokeOff
    ensures r.f.owns == s.f.owns && r.f.generation >= s.f.generation
  {
    if s.pumps[p].PumpDone? then s
    else if s.pumps[p].Recovering? then RecoveringStep(s, p, s.pumps[p].once, cancelled)
    else if cancelled then WithPump(s, p, PumpDone)
    else PumpPhaseStep(s, p, s.pumps[p], heard)
  }

  function RecoveringStep(s: State, p: nat, once: Once, cancelled: bool): (r: State)
    requires p < |s.pumps|
    ensures r.waiters == s.waiters && r.seal == s.seal && r.gaveUp == s.gaveUp && r.brokeOff == s.brokeOff
    ensures r.f.owns == s.f.owns && r.f.generation == s.f.generation
  {
    var moved := OnceMoves(s, once, cancelled);
    if moved.None? then s else WithPump(moved.value.0, p, PumpAfterOnce(moved.value.1, s.f.closed))
  }

  /** What the pump does to the fields in one stretch, and where it goes. */
  function PumpMoved(f: Fields, phase: Pump, heard: Heard): (r: (Fields, Pump))
    ensures r.0.owns == f.owns && r.0.generation == f.generation + (if phase.EventLock? then 1 else 0)
  {
    match phase
    case Listening => (f, match heard case Event => EventLock case Nothing => Pausing case Failure => ErrorLock)
    case EventLock => (f.(generation := f.generation + 1), Head(f.closed))
    case ErrorLock => (f.(error := true, enabled := false), RecoveryHead(f.closed))
    case RecoverErrorLock => (f.(error := true), RecoveryHead(f.closed))
    case Sleeping => (f, if f.closed then PumpDone else Recovering(OnceLock))
    case PumpCreated => (f, Head(f.closed))
    case Pausing => (f, Head(f.closed))
    case _ => (f, phase)
  }

  function PumpPhaseStep(s: State, p: nat, phase: Pump, heard: Heard): (r: State)
    requires p < |s.pumps|
    ensures r.waiters == s.waiters && r.seal == s.seal && r.gaveUp == s.gaveUp && r.brokeOff == s.brokeOff
    ensures r.f.owns == s.f.owns && r.f.generation >= s.f.generation
  {
    var (f, x) := PumpMoved(s.f, phase, heard);
    s.(f := f, pumps := s.pumps[p := x], pumped := s.pumped + (if phase.EventLock? then 1 else 0))
  }

  function ActivationStep(s: State, t: nat, ok: bool, cancelled: bool): (r: State)
    requires t < |s.activations|
    ensures r.waiters == s.waiters && r.seal == s.seal && r.gaveUp == s.gaveUp && r.brokeOff == s.brokeOff
    ensures r.f.owns == s.f.owns && r.f.generation == s.f.generation
  {
    if !s.activations[t].Live() then s
    else if cancelled then s.(activations := s.activations[t := ActivationCancelled])
    else if s.activations[t].Subscribing? then s.(activations := s.activations[t := if ok then SettingActive else Broken])
    else
      var (f, done) := SetActive(s.f);
      s.(f := f, activations := s.activations[t := Set(done)])
  }

  predicate TaskDone(s: State, pump: Option<nat>, activation: Option<nat>) {
    && (pump.Some? && pump.value < |s.pumps| ==> s.pumps[pump.value].PumpDone?)
    && (activation.Some? && activation.value < |s.activations| ==> !s.activations[activation.value].Live())
  }

  /** Close the owned client, or be done at once when there is none. */
  function ToClient(s: State, i: nat): State {
    if s.f.owns then WithCloser(s, i, ClosingClient) else WithCloser(s.(closeLock := None), i, CloseReturned)
  }

  predicate ActivationBroke(s: State, activation: Option<nat>) {
    activation.Some? && activation.value < |s.activations| && s.activations[activation.value].Broken?
  }

  /**
   A subscriber waiting for its first lock entered before `closed` was set, so it
   queued before the closer: the lock serves it first.
   */
  predicate LockServesCloser(s: State) {
    s.lock.None? && forall i | i in s.subscribers :: !s.subscribers[i].FirstLock?
  }

  /** A cancellation is suppressed here; the error of a broken activation comes out when its turn comes. */
  function AwaitStep(s: State, i: nat, pump: Option<nat>, activation: Option<nat>, ok: bool): (r: State)
    ensures r.waiters == s.waiters && r.f == s.f && r.seal == s.seal
    ensures r.pumps == s.pumps && r.activations == s.activations
  {
    if ActivationBroke(s, activation) && (!ok || TaskDone(s, pump, activation))
    then WithCloser(s.(closeLock := None, brokeOff := true), i, CloseRaised)
    else if TaskDone(s, pump, activation) then ToClient(s, i) else s
  }

  function SealStep(s: State, i: nat): (r: State)
    ensures r.waiters == s.waiters && r.f.generation == s.f.generation && r.f.owns == s.f.owns
    ensures r.pumps == s.pumps && r.activations == s.activations && r.f.closed == s.f.closed
  {
    if !LockServesCloser(s) then s
    else WithCloser(s.(f := Sealed(s.f), seal := Some((|s.pumps|, |s.activations|))), i,
                    AwaitTasks(if PumpLive(s) then s.f.pumpTask else None, if ActivationLive(s) then s.f.activationTask else None))
  }

  function CloserStep(s: State, i: nat, ok: bool, cancelled: bool): (r: State)
    requires i in s.closers
    ensures r.waiters == s.waiters && r.f.generation == s.f.generation && (r.f.owns ==> s.f.owns)
    ensures !s.closers[i].SealWait? ==> r.seal == s.seal
  {
    match s.closers[i]
    case CloseWait =>
      if cancelled then WithCloser(s, i, CloseRaised)
      else if s.closeLock.Some? then s
      else if s.f.closed && !s.f.owns then WithCloser(s, i, CloseReturned)
      else if s.f.closed then WithCloser(s.(closeLock := Some(i)), i, ClosingClient)
      else WithCloser(s.(closeLock := Some(i), f := CloseBegun(s.f)), i, SealWait)
    case SealWait =>
      if cancelled then WithCloser(s.(closeLock := None, gaveUp := true), i, CloseRaised)
      else SealStep(s, i)
    case AwaitTasks(pump, activation) => AwaitStep(s, i, pump, activation, ok)
    case ClosingClient =>
      if cancelled || !ok then WithCloser(s.(closeLock := None), i, CloseRaised)
      else WithCloser(s.(closeLock := None, f := s.f.(owns := false), clientCloses := s.clientCloses + 1), i, CloseReturned)
    case _ => s
  }

  function WaiterStep(s: State, i: nat, timedOut: bool): State
    requires i in s.waiters
  {
    match s.waiters[i]
    case AtLock(since) => s.(waiters := s.waiters[i := WaitLocked(s.f, since)])
    case Suspended(since) =>
      if timedOut || Ready(s.f, since) then s.(waiters := s.waiters[i := WaitResumed(s.f, since, timedOut)]) else s
    case _ => s
  }

  function FirstLockStep(s: State, i: nat, usable: bool): (r: State)
    ensures r.waiters == s.waiters && r.seal == s.seal && r.gaveUp == s.gaveUp && r.brokeOff == s.brokeOff
    ensures r.f.owns == s.f.owns && r.f.generation == s.f.generation
  {
    if i !in s.subscribers || !s.subscribers[i].FirstLock? || s.lock.Some? then s
    else if s.f.acquired then WithSubscriber(s, i, AfterClient(s.f, usable, PumpLive(s)))
    else WithSubscriber(s.(lock := Some(i)), i, Acquiring)
  }

  function AcquiredStep(s: State, i: nat, owned: bool, usable: bool): (r: State)
    ensures r.waiters == s.waiters && r.seal == s.seal && r.f.generation == s.f.generation
    ensures r.gaveUp == s.gaveUp && r.brokeOff == s.brokeOff
    ensures i !in s.subscribers || !s.subscribers[i].Acquiring? ==> r == s
  {
    if i !in s.subscribers || !s.subscribers[i].Acquiring? then s
    else
      WithSubscriber(s.(lock := None, f := s.f.(acquired := true, owns := owned),
                        ownedClients := s.ownedClients + (if owned then 1 else 0)),
                     i, AfterClient(s.f, usable, PumpLive(s)))
  }

  function Step(s: State, a: Action): (r: State)
    ensures r.f.generation >= s.f.generation
    ensures !a.Wait? && !a.WaiterMoves? ==> r.waiters == s.waiters
    ensures !a.CloserMoves? ==> r.seal == s.seal && r.gaveUp == s.gaveUp && r.brokeOff == s.brokeOff
  {
    match a
    case Subscribe(i) =>
      if i in s.subscribers then s else WithSubscriber(s, i, if s.f.closed then Returned(false) else FirstLock)
    case TakeFirstLock(i, usable) => FirstLockStep(s, i, usable)
    case Acquired(i, owned, usable) => AcquiredStep(s, i, owned, usable)
    case AcquireFails(i) =>
      if i in s.subscribers && s.subscribers[i].Acquiring? then WithSubscriber(s.(lock := None), i, Raised) else s
    case SubscriberMoves(i, cancelled) => if i in s.subscribers then SubscriberStep(s, i, cancelled) else s
    case PumpMoves(p, heard, cancelled) => if p < |s.pumps| then PumpStep(s, p, heard, cancelled) else s
    case ActivationMoves(t, ok, cancelled) => if t < |s.activations| then ActivationStep(s, t, ok, cancelled) else s
    case Close(i) => if i in s.closers then s else WithCloser(s, i, CloseWait)
    case CloserMoves(i, ok, cancelled) => if i in s.closers then CloserStep(s, i, ok, cancelled) else s
    case Wait(i, since, positive) => s.(waiters := s.waiters[i := WaitCalled(s.f, since, positive)])
    case WaiterMoves(i, timedOut) => if i in s.waiters then WaiterStep(s, i, timedOut) else s
  }

  function Stepper(): (State, Action) -> State { (s: State, a: Action) => Step(s, a) }

  // ------------------------------------------------ invariants

  /** Only the latest pump can be live, and until `close` has sealed the coordinator it is the one in the field. */
  predicate OnePump(pumps: seq<Pump>, task: Option<nat>, sealed: bool) {
    && (forall p | 0 <= p < |pumps| - 1 :: pumps[p].PumpDone?)
    && (pumps != [] && !sealed && !pumps[|pumps| - 1].PumpDone? ==> task == Some(|pumps| - 1))
    && (task.Some? ==> task.value < |pumps|)
  }

  predicate OneActivation(activations: seq<Activation>, task: Option<nat>, sealed: bool) {
    && (forall t | 0 <= t < |activations| - 1 :: !activations[t].Live())
    && (activations != [] && !sealed && activations[|activations| - 1].Live() ==> task == Some(|activations| - 1))
    && (task.Some? ==> task.value < |activations|)
  }

  predicate OnceOk(once: Once, activations: seq<Activation>) {
    match once
    case OnceLock => true
    case OnceWait(t) => t < |activations|
    case OnceClear(t, _) => t < |activations| && !activations[t].Live()
  }

  predicate SubscribersOk(subscribers: map<nat, Subscriber>, activations: seq<Activation>) {
    forall i | i in subscribers && subscribers[i].Activating? :: OnceOk(subscribers[i].once, activations)
  }

  predicate PumpsOk(pumps: seq<Pump>, activations: seq<Activation>) {
    forall p | 0 <= p < |pumps| && pumps[p].Recovering? :: OnceOk(pumps[p].once, activations)
  }

  /** The lock is held by exactly the subscriber that is acquiring, and only before a client was acquired. */
  predicate LockOk(subscribers: map<nat, Subscriber>, lock: Option<nat>, acquired: bool) {
    && (forall i | i in subscribers && subscribers[i].Acquiring? :: lock == Some(i))
    && (lock.Some? ==> !acquired && lock.value in subscribers && subscribers[lock.value].Acquiring?)
  }

  predicate NoneQueued(subscribers: map<nat, Subscriber>) {
    forall i | i in subscribers :: !subscribers[i].FirstLock?
  }

  /** After the locked section of `close` everything stays off and nothing is created any more. */
  predicate SealHolds(f: Fields, seal: Option<(nat, nat)>, pumps: nat, activations: nat) {
    seal.Some? ==> f.closed && !f.subscribed && f.pumpTask.None? && f.activationTask.None?
                   && seal.value == (pumps, activations)
  }

  predicate PumpQuiet(pumps: seq<Pump>) { pumps != [] ==> pumps[|pumps| - 1].PumpDone? }

  predicate ActivationQuiet(activations: seq<Activation>) { activations != [] ==> !activations[|activations| - 1].Live() }

  /** How closing stands: whether the locked section ran, was given up, and whether awaiting the tasks broke off. */
  datatype Standing = Standing(sealed: bool, gaveUp: bool, brokeOff: bool)

  function StandingOf(s: State): Standing { Standing(s.seal.Some?, s.gaveUp, s.brokeOff) }

  /** The locked section ran and the tasks are done, as far as no attempt raised on the way. */
  predicate SettledDown(x: Standing, pumps: seq<Pump>, activations: seq<Activation>) {
    && (x.sealed || x.gaveUp)
    && (x.sealed ==> ActivationQuiet(activations) && (PumpQuiet(pumps) || x.brokeOff))
  }

  /** What a closer knows where it stands. */
  predicate CloserOk(c: Closer, f: Fields, x: Standing, pumps: seq<Pump>, activations: seq<Activation>) {
    match c
    case SealWait => f.closed && !x.sealed && !x.gaveUp
    case AwaitTasks(pump, activation) =>
      && x.sealed
      && (!PumpQuiet(pumps) ==> pump == Some(|pumps| - 1))
      && (!ActivationQuiet(activations) ==> activation == Some(|activations| - 1))
    case ClosingClient => f.owns && f.closed && SettledDown(x, pumps, activations)
    case CloseReturned => f.closed && SettledDown(x, pumps, activations) && (x.sealed ==> !f.owns)
    case _ => true
  }

  /** While closing is under way, somebody holds the close lock for it. */
  predicate ClosingOk(s: State) {
    && (s.gaveUp ==> s.f.closed && s.seal.None?)
    && (s.brokeOff ==> s.seal.Some?)
    && (s.f.closed && s.seal.None? && !s.gaveUp ==>
          s.closeLock.Some? && s.closeLock.value in s.closers && s.closers[s.closeLock.value].SealWait?)
    && (s.seal.Some? && !SettledDown(StandingOf(s), s.pumps, s.activations) ==>
          s.closeLock.Some? && s.closeLock.value in s.closers && s.closers[s.closeLock.value].AwaitTasks?)
  }

  predicate ClosersOk(closers: map<nat, Closer>, f: Fields, x: Standing, pumps: seq<Pump>, activations: seq<Activation>) {
    forall i | i in closers :: CloserOk(closers[i], f, x, pumps, activations)
  }

  predicate CloseLockOk(closers: map<nat, Closer>, closeLock: Option<nat>) {
    forall i | i in closers && closers[i].Holds() :: closeLock == Some(i)
  }

  /** At most one owned client is ever acquired, and it is closed exactly once when it is no longer owned. */
  predicate ClientOk(f: Fields, ownedClients: nat, clientCloses: nat) {
    && clientCloses + (if f.owns then 1 else 0) == ownedClients <= 1
    && (ownedClients == 1 ==> f.acquired)
  }

  /** A wake is reported only with a generation other than the caller's. */
  predicate WaitersOk(waiters: map<nat, Waiter>, generation: nat) {
    forall i | i in waiters && waiters[i].Woken? :: waiters[i].since != waiters[i].generation <= generation
  }

  predicate Inv(s: State) {
    && (s.f.closed ==> !s.f.enabled)
    && s.f.generation == s.pumped
    && OnePump(s.pumps, s.f.pumpTask, s.seal.Some?)
    && OneActivation(s.activations, s.f.activationTask, s.seal.Some?)
    && SubscribersOk(s.subscribers, s.activations)
    && PumpsOk(s.pumps, s.activations)
    && LockOk(s.subscribers, s.lock, s.f.acquired)
    && (s.seal.Some? ==> s.lock.None? && NoneQueued(s.subscribers))
    && SealHolds(s.f, s.seal, |s.pumps|, |s.activations|)
    && ClosersOk(s.closers, s.f, StandingOf(s), s.pumps, s.activations)
    && ClosingOk(s)
    && CloseLockOk(s.closers, s.closeLock)
    && ClientOk(s.f, s.ownedClients, s.clientCloses)
    && WaitersOk(s.waiters, s.f.generation)
  }

  // ------------------------------------------------ every step keeps them

  lemma OnceJoinKeeps(s: State)
    requires Inv(s) && s.lock.None?
    ensures var r := OnceMoves(s, OnceLock, false);
            r.Some? && Inv(r.value.0) && (r.value.1.Goes? ==> OnceOk(r.value.1.once, r.value.0.activations))
  {
    var t := OnceMoves(s, OnceLock, false).value.0;
    assert t.activations == s.activations || t.activations == s.activations + [Subscribing];
    if t.activations != s.activations {
      forall once | OnceOk(once, s.activations) ensures OnceOk(once, t.activations) {
      }
    }
  }

  lemma OnceKeeps(s: State, once: Once, cancelled: bool)
    requires Inv(s) && OnceOk(once, s.activations)
    ensures var r := OnceMoves(s, once, cancelled);
            r.Some? ==> Inv(r.value.0) && (r.value.1.Goes? ==> OnceOk(r.value.1.once, r.value.0.activations))
  {
    if once.OnceLock? && !cancelled && s.lock.None? { OnceJoinKeeps(s); }
  }

  lemma SubscriberPlaced(s: State, i: nat, x: Subscriber)
    requires Inv(s) && i in s.subscribers && !s.subscribers[i].Acquiring? && !x.Acquiring? && !x.FirstLock?
    requires x.Activating? ==> OnceOk(x.once, s.activations)
    ensures Inv(WithSubscriber(s, i, x))
  {
  }

  lemma MarkingKeeps(s: State)
    requires Inv(s) && !s.f.closed
    ensures Inv(s.(f := s.f.(subscribed := true)))
  {
  }

  lemma StartPumpKeeps(s: State)
    requires Inv(s) && !s.f.closed
    ensures Inv(StartPump(s))
  {
    var t := StartPump(s);
    assert t.pumps == s.pumps || t.pumps == s.pumps + [PumpCreated];
    assert ClosersOk(t.closers, t.f, StandingOf(t), t.pumps, t.activations);
  }

  lemma ActivatingKeeps(s: State, i: nat, once: Once, cancelled: bool)
    requires Inv(s) && i in s.subscribers && s.subscribers[i] == Activating(once)
    ensures Inv(SubscriberStep(s, i, cancelled))
  {
    OnceKeeps(s, once, cancelled);
    var moved := OnceMoves(s, once, cancelled);
    if moved.Some? { SubscriberPlaced(moved.value.0, i, SubscriberAfterOnce(moved.value.1)); }
  }

  lemma SubscriberKeeps(s: State, i: nat, cancelled: bool)
    requires Inv(s) && i in s.subscribers
    ensures Inv(SubscriberStep(s, i, cancelled))
  {
    match s.subscribers[i]
    case Activating(once) => ActivatingKeeps(s, i, once, cancelled);
    case SecondLock =>
      if cancelled {
        SubscriberPlaced(s, i, Raised);
      } else if s.f.closed {
        SubscriberPlaced(s, i, Returned(false));
      } else {
        MarkingKeeps(s);
        SubscriberPlaced(s.(f := s.f.(subscribed := true)), i, ThirdLock);
      }
    case ThirdLock =>
      if cancelled {
        SubscriberPlaced(s, i, Raised);
      } else if s.f.closed {
        SubscriberPlaced(s, i, Returned(false));
      } else {
        StartPumpKeeps(s);
        SubscriberPlaced(StartPump(s), i, Returned(true));
      }
    case FirstLock => if cancelled { SubscriberPlaced(s, i, Raised); }
    case _ =>
  }

  lemma PumpPlaced(s: State, p: nat, x: Pump)
    requires Inv(s) && p < |s.pumps| && !s.pumps[p].PumpDone?
    requires x.Recovering? ==> OnceOk(x.once, s.activations)
    ensures Inv(WithPump(s, p, x))
  {
    assert p == |s.pumps| - 1;
    var pumps := s.pumps[p := x];
    assert ClosersOk(s.closers, s.f, StandingOf(s), pumps, s.activations) by {
      forall i | i in s.closers ensures CloserOk(s.closers[i], s.f, StandingOf(s), pumps, s.activations) {
        assert CloserOk(s.closers[i], s.f, StandingOf(s), s.pumps, s.activations);
      }
    }
  }

  lemma EventKeeps(s: State)
    requires Inv(s)
    ensures Inv(s.(f := s.f.(generation := s.f.generation + 1), pumped := s.pumped + 1))
  {
  }

  lemma ErrorKeeps(s: State, enabled: bool)
    requires Inv(s) && (enabled ==> s.f.enabled)
    ensures Inv(s.(f := s.f.(error := true, enabled := enabled)))
  {
  }

  lemma RecoveringKeeps(s: State, p: nat, once: Once, cancelled: bool)
    requires Inv(s) && p < |s.pumps| && s.pumps[p] == Recovering(once)
    ensures Inv(RecoveringStep(s, p, once, cancelled))
  {
    OnceKeeps(s, once, cancelled);
    var moved := OnceMoves(s, once, cancelled);
    if moved.Some? { PumpPlaced(moved.value.0, p, PumpAfterOnce(moved.value.1, s.f.closed)); }
  }

  lemma PumpKeeps(s: State, p: nat, heard: Heard, cancelled: bool)
    requires Inv(s) && p < |s.pumps|
    ensures Inv(PumpStep(s, p, heard, cancelled))
  {
    if s.pumps[p].PumpDone? {
    } else if s.pumps[p].Recovering? {
      RecoveringKeeps(s, p, s.pumps[p].once, cancelled);
    } else if cancelled {
      PumpPlaced(s, p, PumpDone);
    } else {
      PumpPhaseKeeps(s, p, heard);
    }
  }

  lemma PumpPhaseIs(s: State, p: nat, heard: Heard)
    requires p < |s.pumps|
    ensures var t, phase := PumpPhaseStep(s, p, s.pumps[p], heard), s.pumps[p];
            && (phase.EventLock? ==>
                  t == WithPump(s.(f := s.f.(generation := s.f.generation + 1), pumped := s.pumped + 1), p, Head(s.f.closed)))
            && (phase.ErrorLock? ==>
                  t == WithPump(s.(f := s.f.(error := true, enabled := false)), p, RecoveryHead(s.f.closed)))
            && (phase.RecoverErrorLock? ==>
                  t == WithPump(s.(f := s.f.(error := true, enabled := s.f.enabled)), p, RecoveryHead(s.f.closed)))
            && (!phase.EventLock? && !phase.ErrorLock? && !phase.RecoverErrorLock? ==>
                  t == WithPump(s, p, PumpMoved(s.f, phase, heard).1))
  {
  }

  lemma PumpedKeeps(s: State, p: nat, heard: Heard)
    requires Inv(s) && p < |s.pumps| && s.pumps[p].EventLock?
    ensures Inv(PumpPhaseStep(s, p, EventLock, heard))
  {
    var counted := s.(f := s.f.(generation := s.f.generation + 1), pumped := s.pumped + 1);
    EventKeeps(s);
    PumpPlaced(counted, p, Head(s.f.closed));
    PumpPhaseIs(s, p, heard);
  }

  lemma FailedKeeps(s: State, p: nat, enabled: bool)
    requires Inv(s) && p < |s.pumps| && !s.pumps[p].PumpDone? && (enabled ==> s.f.enabled)
    ensures Inv(WithPump(s.(f := s.f.(error := true, enabled := enabled)), p, RecoveryHead(s.f.closed)))
  {
    ErrorKeeps(s, enabled);
    PumpPlaced(s.(f := s.f.(error := true, enabled := enabled)), p, RecoveryHead(s.f.closed));
  }

  lemma PlainPhaseKeeps(s: State, p: nat, heard: Heard)
    requires Inv(s) && p < |s.pumps| && !s.pumps[p].PumpDone? && !s.pumps[p].Recovering?
    requires !s.pumps[p].EventLock? && !s.pumps[p].ErrorLock? && !s.pumps[p].RecoverErrorLock?
    ensures Inv(PumpPhaseStep(s, p, s.pumps[p], heard))
  {
    var x := PumpMoved(s.f, s.pumps[p], heard).1;
    PumpPlaced(s, p, x);
    PumpPhaseIs(s, p, heard);
  }

  lemma FailedPhaseKeeps(s: State, p: nat, heard: Heard)
    requires Inv(s) && p < |s.pumps| && (s.pumps[p].ErrorLock? || s.pumps[p].RecoverErrorLock?)
    ensures Inv(PumpPhaseStep(s, p, s.pumps[p], heard))
  {
    var enabled := s.pumps[p].RecoverErrorLock? && s.f.enabled;
    FailedKeeps(s, p, enabled);
    PumpPhaseIs(s, p, heard);
  }

  lemma PumpPhaseKeeps(s: State, p: nat, heard: Heard)
    requires Inv(s) && p < |s.pumps| && !s.pumps[p].PumpDone? && !s.pumps[p].Recovering?
    ensures Inv(PumpPhaseStep(s, p, s.pumps[p], heard))
  {
    if s.pumps[p].EventLock? {
      PumpedKeeps(s, p, heard);
    } else if s.pumps[p].ErrorLock? || s.pumps[p].RecoverErrorLock? {
      FailedPhaseKeeps(s, p, heard);
    } else {
      PlainPhaseKeeps(s, p, heard);
    }
  }

  lemma ActivationPlaced(s: State, t: nat, x: Activation)
    requires Inv(s) && t < |s.activations| && s.activations[t].Live()
    ensures Inv(s.(activations := s.activations[t := x]))
  {
    assert t == |s.activations| - 1;
    var activations := s.activations[t := x];
    forall once | OnceOk(once, s.activations) ensures OnceOk(once, activations) {
    }
    assert ClosersOk(s.closers, s.f, StandingOf(s), s.pumps, activations) by {
      forall i | i in s.closers ensures CloserOk(s.closers[i], s.f, StandingOf(s), s.pumps, activations) {
        assert CloserOk(s.closers[i], s.f, StandingOf(s), s.pumps, s.activations);
      }
    }
  }

  lemma SetActiveKeeps(s: State)
    requires Inv(s)
    ensures Inv(s.(f := SetActive(s.f).0))
  {
  }

  lemma ActivationKeeps(s: State, t: nat, ok: bool, cancelled: bool)
    requires Inv(s) && t < |s.activations|
    ensures Inv(ActivationStep(s, t, ok, cancelled))
  {
    if s.activations[t].Live() {
      if cancelled {
        ActivationPlaced(s, t, ActivationCancelled);
      } else if s.activations[t].Subscribing? {
        ActivationPlaced(s, t, if ok then SettingActive else Broken);
      } else {
        SetActiveKeeps(s);
        ActivationPlaced(s.(f := SetActive(s.f).0), t, Set(SetActive(s.f).1));
      }
    }
  }

  /** Another closer's knowledge survives a step of the one that has, or lets go of, the close lock. */
  lemma OthersDoNotHold(s: State, i: nat, j: nat)
    requires Inv(s) && i in s.closers && j in s.closers && i != j && (s.closeLock.None? || s.closeLock == Some(i))
    ensures !s.closers[j].Holds()
  {
  }

  lemma WaitingCloserStops(s: State, i: nat, x: Closer)
    requires Inv(s) && i in s.closers && s.closers[i].CloseWait? && (x.CloseRaised? || (x.CloseReturned? && s.closeLock.None?))
    requires x.CloseReturned? ==> s.f.closed && !s.f.owns
    ensures Inv(WithCloser(s, i, x))
  {
  }

  lemma WaitingCloserGoesOn(s: State, i: nat)
    requires Inv(s) && i in s.closers && s.closers[i].CloseWait? && s.closeLock.None? && s.f.closed && s.f.owns
    ensures Inv(WithCloser(s.(closeLock := Some(i)), i, ClosingClient))
  {
    forall j | j in s.closers && j != i ensures !s.closers[j].Holds() { OthersDoNotHold(s, i, j); }
  }

  lemma BeginCloseKeeps(s: State, i: nat)
    requires Inv(s) && i in s.closers && s.closers[i].CloseWait? && s.closeLock.None? && !s.f.closed
    ensures Inv(WithCloser(s.(closeLock := Some(i), f := CloseBegun(s.f)), i, SealWait))
  {
    var t := WithCloser(s.(closeLock := Some(i), f := CloseBegun(s.f)), i, SealWait);
    forall j | j in t.closers ensures CloserOk(t.closers[j], t.f, StandingOf(t), t.pumps, t.activations) {
      assert CloserOk(s.closers[j], s.f, StandingOf(s), s.pumps, s.activations);
      if j != i { OthersDoNotHold(s, i, j); }
    }
  }

  lemma GivingUpKeeps(s: State, i: nat)
    requires Inv(s) && i in s.closers && s.closers[i].SealWait?
    ensures Inv(WithCloser(s.(closeLock := None, gaveUp := true), i, CloseRaised))
  {
    var t := WithCloser(s.(closeLock := None, gaveUp := true), i, CloseRaised);
    assert CloserOk(s.closers[i], s.f, StandingOf(s), s.pumps, s.activations);
    forall j | j in t.closers ensures CloserOk(t.closers[j], t.f, StandingOf(t), t.pumps, t.activations) {
      assert CloserOk(s.closers[j], s.f, StandingOf(s), s.pumps, s.activations);
      if j != i { OthersDoNotHold(s, i, j); }
    }
  }

  /** The locked section: whatever is still live was in the fields, and the closer now knows it. */
  lemma SealKeeps(s: State, i: nat)
    requires Inv(s) && i in s.closers && s.closers[i].SealWait? && LockServesCloser(s)
    ensures Inv(CloserStep(s, i, true, false))
  {
    var t := CloserStep(s, i, true, false);
    assert CloserOk(s.closers[i], s.f, StandingOf(s), s.pumps, s.activations);
    forall j | j in t.closers ensures CloserOk(t.closers[j], t.f, StandingOf(t), t.pumps, t.activations) {
      assert CloserOk(s.closers[j], s.f, StandingOf(s), s.pumps, s.activations);
      if j != i { OthersDoNotHold(s, i, j); }
    }
  }

  lemma BreakingOffKeeps(s: State, i: nat)
    requires Inv(s) && i in s.closers && s.closers[i].AwaitTasks? && ActivationBroke(s, s.closers[i].activation)
    ensures Inv(WithCloser(s.(closeLock := None, brokeOff := true), i, CloseRaised))
  {
    var t := WithCloser(s.(closeLock := None, brokeOff := true), i, CloseRaised);
    assert CloserOk(s.closers[i], s.f, StandingOf(s), s.pumps, s.activations);
    assert ActivationQuiet(s.activations);
    forall j | j in t.closers ensures CloserOk(t.closers[j], t.f, StandingOf(t), t.pumps, t.activations) {
      assert CloserOk(s.closers[j], s.f, StandingOf(s), s.pumps, s.activations);
      if j != i { OthersDoNotHold(s, i, j); }
    }
  }

  lemma AwaitedKeeps(s: State, i: nat)
    requires Inv(s) && i in s.closers && s.closers[i].AwaitTasks? && TaskDone(s, s.closers[i].pump, s.closers[i].activation)
    ensures Inv(ToClient(s, i))
  {
    assert CloserOk(s.closers[i], s.f, StandingOf(s), s.pumps, s.activations);
    assert SettledDown(StandingOf(s), s.pumps, s.activations);
    var t := ToClient(s, i);
    forall j | j in t.closers ensures CloserOk(t.closers[j], t.f, StandingOf(t), t.pumps, t.activations) {
      assert CloserOk(s.closers[j], s.f, StandingOf(s), s.pumps, s.activations);
    }
  }

  lemma ClientStays(s: State, i: nat)
    requires Inv(s) && i in s.closers && s.closers[i].ClosingClient?
    ensures Inv(WithCloser(s.(closeLock := None), i, CloseRaised))
  {
    assert CloserOk(s.closers[i], s.f, StandingOf(s), s.pumps, s.activations);
  }

  lemma ClientClosedKeeps(s: State, i: nat)
    requires Inv(s) && i in s.closers && s.closers[i].ClosingClient?
    ensures Inv(CloserStep(s, i, true, false))
  {
    var t := CloserStep(s, i, true, false);
    assert CloserOk(s.closers[i], s.f, StandingOf(s), s.pumps, s.activations);
    forall j | j in t.closers ensures CloserOk(t.closers[j], t.f, StandingOf(t), t.pumps, t.activations) {
      assert CloserOk(s.closers[j], s.f, StandingOf(s), s.pumps, s.activations);
      if j != i { OthersDoNotHold(s, i, j); }
    }
  }

  lemma WaitingCloserKeeps(s: State, i: nat, ok: bool, cancelled: bool)
    requires Inv(s) && i in s.closers && s.closers[i].CloseWait?
    ensures Inv(CloserStep(s, i, ok, cancelled))
  {
    if cancelled {
      WaitingCloserStops(s, i, CloseRaised);
    } else if s.closeLock.None? {
      if s.f.closed && !s.f.owns {
        WaitingCloserStops(s, i, CloseReturned);
      } else if s.f.closed {
        WaitingCloserGoesOn(s, i);
      } else {
        BeginCloseKeeps(s, i);
      }
    }
  }

  lemma CloserKeeps(s: State, i: nat, ok: bool, cancelled: bool)
    requires Inv(s) && i in s.closers
    ensures Inv(CloserStep(s, i, ok, cancelled))
  {
    match s.closers[i]
    case CloseWait => WaitingCloserKeeps(s, i, ok, cancelled);
    case SealWait =>
      if cancelled { GivingUpKeeps(s, i); } else if LockServesCloser(s) { SealKeeps(s, i); }
    case AwaitTasks(pump, activation) =>
      if ActivationBroke(s, activation) && (!ok || TaskDone(s, pump, activation)) {
        BreakingOffKeeps(s, i);
      } else if TaskDone(s, pump, activation) {
        AwaitedKeeps(s, i);
      }
    case ClosingClient =>
      if cancelled || !ok { ClientStays(s, i); } else { ClientClosedKeeps(s, i); }
    case _ =>
  }

  lemma SubscribeKeeps(s: State, i: nat)
    requires Inv(s) && i !in s.subscribers
    ensures Inv(Step(s, Subscribe(i)))
  {
  }

  lemma FirstLockKeeps(s: State, i: nat, usable: bool)
    requires Inv(s)
    ensures Inv(FirstLockStep(s, i, usable))
  {
    if i in s.subscribers && s.subscribers[i].FirstLock? && s.lock.None? && s.f.acquired {
      SubscriberPlaced(s, i, AfterClient(s.f, usable, PumpLive(s)));
    }
  }

  lemma AcquiredKeeps(s: State, i: nat, owned: bool, usable: bool)
    requires Inv(s)
    ensures Inv(AcquiredStep(s, i, owned, usable))
  {
  }

  lemma AcquireFailsKeeps(s: State, i: nat)
    requires Inv(s)
    ensures Inv(Step(s, AcquireFails(i)))
  {
  }

  lemma WaitKeeps(s: State, i: nat, x: Waiter)
    requires Inv(s) && (x.Woken? ==> x.since != x.generation <= s.f.generation)
    ensures Inv(s.(waiters := s.waiters[i := x]))
  {
  }

  lemma WaiterKeeps(s: State, i: nat, timedOut: bool)
    requires Inv(s) && i in s.waiters
    ensures Inv(WaiterStep(s, i, timedOut))
  {
    match s.waiters[i]
    case AtLock(since) => WaitKeeps(s, i, WaitLocked(s.f, since));
    case Suspended(since) => WaitKeeps(s, i, WaitResumed(s.f, since, timedOut));
    case _ =>
  }

  lemma CloseKeeps(s: State, i: nat)
    requires Inv(s) && i !in s.closers
    ensures Inv(WithCloser(s, i, CloseWait))
  {
  }

  lemma StepKeepsInv(s: State, a: Action)
    requires Inv(s)
    ensures Inv(Step(s, a))
  {
    match a
    case SubscriberMoves(i, cancelled) => if i in s.subscribers { SubscriberKeeps(s, i, cancelled); }
    case PumpMoves(p, heard, cancelled) => if p < |s.pumps| { PumpKeeps(s, p, heard, cancelled); }
    case ActivationMoves(t, ok, cancelled) => if t < |s.activations| { ActivationKeeps(s, t, ok, cancelled); }
    case CloserMoves(i, ok, cancelled) => if i in s.closers { CloserKeeps(s, i, ok, cancelled); }
    case Wait(i, since, positive) => WaitKeeps(s, i, WaitCalled(s.f, since, positive));
    case WaiterMoves(i, timedOut) => if i in s.waiters { WaiterKeeps(s, i, timedOut); }
    case Close(i) => if i !in s.closers { CloseKeeps(s, i); }
    case Subscribe(i) => if i !in s.subscribers { SubscribeKeeps(s, i); }
    case TakeFirstLock(i, usable) => FirstLockKeeps(s, i, usable);
    case Acquired(i, owned, usable) => AcquiredKeeps(s, i, owned, usable);
    case AcquireFails(i) => AcquireFailsKeeps(s, i);
  }

  // ------------------------------------------------ over whole runs

  lemma InitialOk()
    ensures Inv(Initial())
  {
  }

  lemma {:induction false} RunKeepsInv(s: State, actions: seq<Action>)
    requires Inv(s)
    ensures Inv(Runs.Run(Stepper(), s, actions))
    decreases |actions|
  {
    if actions != [] {
      var front := actions[..|actions| - 1];
      RunKeepsInv(s, front);
      StepKeepsInv(Runs.Run(Stepper(), s, front), actions[|actions| - 1]);
    }
  }

  /** The state after a run. */
  function Reached(actions: seq<Action>): State { Runs.Run(Stepper(), Initial(), actions) }

  lemma ReachedNext(actions: seq<Action>, k: nat)
    requires k < |actions|
    ensures Reached(actions[..k + 1]) == Step(Reached(actions[..k]), actions[k])
  {
    assert actions[..k + 1][..k] == actions[..k];
  }

  /** A close is cancelled while it waits for the subscription lock. */
  predicate GivesUp(s: State, a: Action) {
    a.CloserMoves? && a.cancelled && a.i in s.closers && s.closers[a.i].SealWait?
  }

  /** A close raises the error of an activation that it awaits. */
  predicate BreaksOff(s: State, a: Action) {
    && a.CloserMoves? && a.i in s.closers && s.closers[a.i].AwaitTasks? && ActivationBroke(s, s.closers[a.i].activation)
    && (!a.ok || TaskDone(s, s.closers[a.i].pump, s.closers[a.i].activation))
  }

  lemma CloserFlags(s: State, i: nat, ok: bool, cancelled: bool)
    requires i in s.closers
    ensures CloserStep(s, i, ok, cancelled).gaveUp <==> s.gaveUp || GivesUp(s, CloserMoves(i, ok, cancelled))
    ensures CloserStep(s, i, ok, cancelled).brokeOff <==> s.brokeOff || BreaksOff(s, CloserMoves(i, ok, cancelled))
  {
  }

  lemma FlagsStep(s: State, a: Action)
    ensures Step(s, a).gaveUp <==> s.gaveUp || GivesUp(s, a)
    ensures Step(s, a).brokeOff <==> s.brokeOff || BreaksOff(s, a)
  {
    if a.CloserMoves? && a.i in s.closers { CloserFlags(s, a.i, a.ok, a.cancelled); }
  }

  /** Some attempt of the run gave up its locked section, or broke off awaiting the tasks. */
  ghost predicate GaveUp(actions: seq<Action>) { GaveUpBefore(actions, |actions|) }

  ghost predicate BrokeOff(actions: seq<Action>) { BrokeOffBefore(actions, |actions|) }

  ghost predicate GaveUpBefore(actions: seq<Action>, n: nat)
    requires n <= |actions|
  {
    exists k :: 0 <= k < n && GivesUp(Reached(actions[..k]), actions[k])
  }

  ghost predicate BrokeOffBefore(actions: seq<Action>, n: nat)
    requires n <= |actions|
  {
    exists k :: 0 <= k < n && BreaksOff(Reached(actions[..k]), actions[k])
  }

  lemma OneMoreAction(actions: seq<Action>, n: nat)
    requires n < |actions|
    ensures GaveUpBefore(actions, n + 1) <==> GaveUpBefore(actions, n) || GivesUp(Reached(actions[..n]), actions[n])
    ensures BrokeOffBefore(actions, n + 1) <==> BrokeOffBefore(actions, n) || BreaksOff(Reached(actions[..n]), actions[n])
  {
  }

  lemma {:induction false} FlagsUpTo(actions: seq<Action>, n: nat)
    requires n <= |actions|
    ensures Reached(actions[..n]).gaveUp <==> GaveUpBefore(actions, n)
    ensures Reached(actions[..n]).brokeOff <==> BrokeOffBefore(actions, n)
    decreases n
  {
    if n == 0 {
      assert actions[..0] == [];
    } else {
      FlagsUpTo(actions, n - 1);
      OneMoreAction(actions, n - 1);
      ReachedNext(actions, n - 1);
      FlagsStep(Reached(actions[..n - 1]), actions[n - 1]);
    }
  }

  /** Everything is down: no live task, no owned client left open. */
  predicate AllDown(s: State) {
    && (forall p | 0 <= p < |s.activations| :: !s.activations[p].Live())
    && !s.f.owns && s.clientCloses == s.ownedClients
  }

  /**
   In every run: a closed coordinator is not enabled, no two pumps and no two
   activations are live, the generation counts the events pumped, an owned client
   is closed at most once, and after any normal return of `close`: the locked
   section has run if and only if no attempt was cancelled waiting for it; if it
   has, no activation is live and no client is owned, and a pump is live only if
   an attempt broke off on the error of an activation.
   */
  lemma WakeLifecycleIsSafe(actions: seq<Action>)
    ensures var s := Reached(actions);
            && (s.f.closed ==> !s.f.enabled)
            && s.f.generation == s.pumped
            && (forall p, q | 0 <= p < q < |s.pumps| :: s.pumps[p].PumpDone? || s.pumps[q].PumpDone?)
            && (forall p, q | 0 <= p < q < |s.activations| :: !s.activations[p].Live() || !s.activations[q].Live())
            && s.clientCloses <= s.ownedClients <= 1
            && forall i | i in s.closers && s.closers[i].CloseReturned? ::
                 && (s.seal.Some? <==> !GaveUp(actions))
                 && (s.seal.Some? ==>
                       AllDown(s) && (BrokeOff(actions) || forall p | 0 <= p < |s.pumps| :: s.pumps[p].PumpDone?))
  {
    InitialOk();
    RunKeepsInv(Initial(), actions);
    InvIsSafe(Reached(actions));
    FlagsUpTo(actions, |actions|);
    assert actions[..|actions|] == actions;
  }

  lemma InvIsSafe(s: State)
    requires Inv(s)
    ensures forall p, q | 0 <= p < q < |s.pumps| :: s.pumps[p].PumpDone? || s.pumps[q].PumpDone?
    ensures forall p, q | 0 <= p < q < |s.activations| :: !s.activations[p].Live() || !s.activations[q].Live()
    ensures forall i | i in s.closers && s.closers[i].CloseReturned? ::
              && (s.seal.Some? <==> !s.gaveUp)
              && (s.seal.Some? ==> AllDown(s) && (s.brokeOff || forall p | 0 <= p < |s.pumps| :: s.pumps[p].PumpDone?))
  {
    forall i | i in s.closers && s.closers[i].CloseReturned?
      ensures (s.seal.Some? <==> !s.gaveUp)
              && (s.seal.Some? ==> ActivationQuiet(s.activations) && !s.f.owns && (s.brokeOff || PumpQuiet(s.pumps)))
    {
      assert CloserOk(s.closers[i], s.f, StandingOf(s), s.pumps, s.activations);
    }
  }

  /** Nothing an unsealed run could still do comes back after the locked section of `close`. */
  predicate StaysSealed(s: State, seal: (nat, nat), owns: bool) {
    Inv(s) && s.seal == Some(seal) && (s.f.owns ==> owns)
  }

  lemma OwnsNothingNew(s: State, a: Action)
    requires LockOk(s.subscribers, s.lock, s.f.acquired) && s.lock.None?
    ensures Step(s, a).f.owns ==> s.f.owns
  {
    if a.Acquired? {
      assert a.i in s.subscribers ==> !s.subscribers[a.i].Acquiring?;
    }
  }

  lemma SealedStep(s: State, a: Action, seal: (nat, nat), owns: bool)
    requires StaysSealed(s, seal, owns)
    ensures StaysSealed(Step(s, a), seal, owns)
  {
    StepKeepsInv(s, a);
    OwnsNothingNew(s, a);
    if a.CloserMoves? && a.i in s.closers {
      assert CloserOk(s.closers[a.i], s.f, StandingOf(s), s.pumps, s.activations);
    }
  }

  lemma {:induction false} SealedRun(s: State, actions: seq<Action>, seal: (nat, nat), owns: bool)
    requires StaysSealed(s, seal, owns)
    ensures StaysSealed(Runs.Run(Stepper(), s, actions), seal, owns)
    decreases |actions|
  {
    if actions != [] {
      var front := actions[..|actions| - 1];
      SealedRun(s, front, seal, owns);
      SealedStep(Runs.Run(Stepper(), s, front), actions[|actions| - 1], seal, owns);
    }
  }

  /**
   Once `close` has passed its locked section the subscription stays off and no
   pump, no activation and no owned client is ever created again.
   */
  lemma SealIsForever(before: seq<Action>, after: seq<Action>)
    ensures var s := Runs.Run(Stepper(), Initial(), before);
            var t := Runs.Run(Stepper(), s, after);
            s.seal.Some? ==>
              && t.f.closed && !t.f.enabled && !t.f.subscribed && t.f.pumpTask.None? && t.f.activationTask.None?
              && |t.pumps| == |s.pumps| && |t.activations| == |s.activations|
              && (t.f.owns ==> s.f.owns)
  {
    InitialOk();
    RunKeepsInv(Initial(), before);
    var s := Runs.Run(Stepper(), Initial(), before);
    if s.seal.Some? {
      SealedRun(s, after, s.seal.value, s.f.owns);
    }
  }

  // ------------------------------------------------ what an unsealed close leaves behind

  predicate StaysClosed(s: State, pumps: nat, activations: nat) {
    Inv(s) && s.f.closed && |s.pumps| == pumps && |s.activations| == activations
  }

  lemma ClosedOnce(s: State, once: Once, cancelled: bool)
    requires s.f.closed
    ensures var r := OnceMoves(s, once, cancelled); r.Some? ==> r.value.0.f.closed && |r.value.0.activations| == |s.activations|
  {
  }

  predicate SameTasks(s: State, t: State) {
    t.f.closed && |t.pumps| == |s.pumps| && |t.activations| == |s.activations|
  }

  lemma ClosedSubscriber(s: State, i: nat, cancelled: bool)
    requires s.f.closed && i in s.subscribers
    ensures SameTasks(s, SubscriberStep(s, i, cancelled))
  {
    if s.subscribers[i].Activating? { ClosedOnce(s, s.subscribers[i].once, cancelled); }
  }

  lemma ClosedPump(s: State, p: nat, heard: Heard, cancelled: bool)
    requires s.f.closed && p < |s.pumps|
    ensures SameTasks(s, PumpStep(s, p, heard, cancelled))
  {
    if s.pumps[p].Recovering? {
      ClosedOnce(s, s.pumps[p].once, cancelled);
    } else {
      ClosedPhase(s, p, heard);
    }
  }

  lemma ClosedPhase(s: State, p: nat, heard: Heard)
    requires s.f.closed && p < |s.pumps|
    ensures SameTasks(s, PumpPhaseStep(s, p, s.pumps[p], heard))
  {
  }

  lemma ClosedCloser(s: State, i: nat, ok: bool, cancelled: bool)
    requires s.f.closed && i in s.closers
    ensures SameTasks(s, CloserStep(s, i, ok, cancelled))
  {
    match s.closers[i]
    case SealWait => assert SameTasks(s, SealStep(s, i));
    case AwaitTasks(pump, activation) => assert SameTasks(s, AwaitStep(s, i, pump, activation, ok));
    case _ =>
  }

  lemma ClosedActivation(s: State, t: nat, ok: bool, cancelled: bool)
    requires s.f.closed && t < |s.activations|
    ensures SameTasks(s, ActivationStep(s, t, ok, cancelled))
  {
  }

  lemma ClosedFirstLock(s: State, i: nat, owned: bool, usable: bool)
    requires s.f.closed
    ensures SameTasks(s, FirstLockStep(s, i, usable)) && SameTasks(s, AcquiredStep(s, i, owned, usable))
  {
  }

  lemma ClosedOther(s: State, a: Action)
    requires s.f.closed && !a.SubscriberMoves? && !a.PumpMoves? && !a.CloserMoves?
    ensures SameTasks(s, Step(s, a))
  {
    match a
    case ActivationMoves(t, ok, cancelled) => if t < |s.activations| { ClosedActivation(s, t, ok, cancelled); }
    case TakeFirstLock(i, usable) => ClosedFirstLock(s, i, false, usable);
    case Acquired(i, owned, usable) => ClosedFirstLock(s, i, owned, usable);
    case _ =>
  }

  lemma ClosedStep(s: State, a: Action, pumps: nat, activations: nat)
    requires StaysClosed(s, pumps, activations)
    ensures StaysClosed(Step(s, a), pumps, activations)
  {
    StepKeepsInv(s, a);
    ClosedKeepsTasks(s, a);
  }

  lemma ClosedKeepsTasks(s: State, a: Action)
    requires s.f.closed
    ensures SameTasks(s, Step(s, a))
  {
    match a
    case SubscriberMoves(i, cancelled) => if i in s.subscribers { ClosedSubscriber(s, i, cancelled); }
    case PumpMoves(p, heard, cancelled) => if p < |s.pumps| { ClosedPump(s, p, heard, cancelled); }
    case CloserMoves(i, ok, cancelled) => if i in s.closers { ClosedCloser(s, i, ok, cancelled); }
    case _ => ClosedOther(s, a);
  }

  lemma {:induction false} ClosedRun(s: State, actions: seq<Action>, pumps: nat, activations: nat)
    requires StaysClosed(s, pumps, activations)
    ensures StaysClosed(Runs.Run(Stepper(), s, actions), pumps, activations)
    decreases |actions|
  {
    if actions != [] {
      var front := actions[..|actions| - 1];
      ClosedRun(s, front, pumps, activations);
      ClosedStep(Runs.Run(Stepper(), s, front), actions[|actions| - 1], pumps, activations);
    }
  }

  /**
   From the moment a close began, whether or not its locked section ever runs, the
   coordinator is never enabled again and no pump or activation is created.
   */
  lemma ClosedCreatesNothing(before: seq<Action>, after: seq<Action>)
    requires Reached(before).f.closed
    ensures var s := Reached(before);
            var t := Runs.Run(Stepper(), s, after);
            t.f.closed && !t.f.enabled && |t.pumps| == |s.pumps| && |t.activations| == |s.activations|
  {
    InitialOk();
    RunKeepsInv(Initial(), before);
    var s := Reached(before);
    ClosedRun(s, after, |s.pumps|, |s.activations|);
  }

  /** A subscriber is acquiring its client while a close gives up waiting for its lock and another returns. */
  function UnsealedReturn(): State {
    Initial().(f := Initial().f.(closed := true), lock := Some(0), subscribers := map[0 := Acquiring],
               closers := map[0 := CloseRaised, 1 := CloseReturned], gaveUp := true)
  }

  /** Half of the way: a close waits for the lock that an acquiring subscriber holds. */
  function CloseBehindSubscriber(): State {
    Initial().(f := Initial().f.(closed := true), lock := Some(0), subscribers := map[0 := Acquiring],
               closers := map[0 := SealWait], closeLock := Some(0))
  }

  lemma CloseQueues(actions: seq<Action>)
    requires actions == [Subscribe(0), TakeFirstLock(0, true), Close(0), CloserMoves(0, true, false)]
    ensures Runs.Run(Stepper(), Initial(), actions) == CloseBehindSubscriber()
  {
    var s0 := Initial();
    var s1 := s0.(subscribers := map[0 := FirstLock]);
    var s2 := s0.(subscribers := map[0 := Acquiring], lock := Some(0));
    var s3 := s2.(closers := map[0 := CloseWait]);
    var s4 := CloseBehindSubscriber();
    assert Step(s0, actions[0]) == s1;
    assert Step(s1, actions[1]) == s2;
    assert Step(s2, actions[2]) == s3;
    assert Step(s3, actions[3]) == s4;
    Runs.RunAlong(Stepper(), [s0, s1, s2, s3, s4], actions);
  }

  lemma CloseGivesUp(actions: seq<Action>)
    requires actions == [CloserMoves(0, true, true), Close(1), CloserMoves(1, true, false)]
    ensures Runs.Run(Stepper(), CloseBehindSubscriber(), actions) == UnsealedReturn()
  {
    var s4 := CloseBehindSubscriber();
    var s5 := s4.(closers := map[0 := CloseRaised], closeLock := None, gaveUp := true);
    var s6 := s5.(closers := map[0 := CloseRaised, 1 := CloseWait]);
    var s7 := UnsealedReturn();
    assert Step(s4, actions[0]) == s5;
    assert Step(s5, actions[1]) == s6;
    assert Step(s6, actions[2]) == s7;
    Runs.RunAlong(Stepper(), [s4, s5, s6, s7], actions);
  }

  /** Such a run, from the start: a close returns although the locked section never ran. */
  lemma CloseReturnsUnsealed(actions: seq<Action>)
    requires actions == [Subscribe(0), TakeFirstLock(0, true), Close(0), CloserMoves(0, true, false)]
                        + [CloserMoves(0, true, true), Close(1), CloserMoves(1, true, false)]
    ensures Reached(actions) == UnsealedReturn()
  {
    var first, second := actions[..4], actions[4..];
    CloseQueues(first);
    CloseGivesUp(second);
    Runs.RunComposes(Stepper(), Initial(), first, second);
    assert actions == first + second;
  }

  /** And what it leaves behind: the subscriber goes on to an owned client that nobody closes. */
  lemma UnsealedReturnLeavesClient() returns (actions: seq<Action>)
    ensures var s := Reached(actions);
            && 1 in s.closers && s.closers[1].CloseReturned? && s.seal.None? && GaveUp(actions)
            && s.f.owns && s.clientCloses < s.ownedClients
  {
    var first := [Subscribe(0), TakeFirstLock(0, true), Close(0), CloserMoves(0, true, false)]
                 + [CloserMoves(0, true, true), Close(1), CloserMoves(1, true, false)];
    actions := first + [Acquired(0, true, true)];
    CloseReturnsUnsealed(first);
    Runs.RunComposes(Stepper(), Initial(), first, [Acquired(0, true, true)]);
    Runs.RunOfOne(Stepper(), UnsealedReturn(), Acquired(0, true, true));
    FlagsUpTo(actions, |actions|);
    assert actions[..|actions|] == actions;
  }

  /** It is not lost: the next close that is not cancelled and does not fail closes it. */
  lemma NextCloseClosesClient(s: State, i: nat)
    requires Inv(s) && s.f.closed && s.f.owns && s.closeLock.None? && i !in s.closers
    ensures var t := Step(Step(Step(s, Close(i)), CloserMoves(i, true, false)), CloserMoves(i, true, false));
            i in t.closers && t.closers[i].CloseReturned? && !t.f.owns && t.clientCloses == t.ownedClients
  {
    var s1 := Step(s, Close(i));
    var s2 := Step(s1, CloserMoves(i, true, false));
    assert s2.closers[i].ClosingClient?;
  }

  // ------------------------------------------------ level-triggered waiting

  predicate WillReport(s: State, w: nat, since: nat, generation: nat) {
    && s.f.generation >= generation > since
    && w in s.waiters
    && (s.waiters[w] == AtLock(since)
        || (s.waiters[w].Woken? && s.waiters[w].since == since && s.waiters[w].generation >= generation))
  }

  lemma {:induction false} KeepsReporting(s: State, actions: seq<Action>, w: nat, since: nat, generation: nat)
    requires WillReport(s, w, since, generation)
    requires forall k | 0 <= k < |actions| :: !(actions[k].Wait? && actions[k].i == w)
    ensures WillReport(Runs.Run(Stepper(), s, actions), w, since, generation)
    decreases |actions|
  {
    if actions != [] {
      var front, last := actions[..|actions| - 1], actions[|actions| - 1];
      KeepsReporting(s, front, w, since, generation);
      var t := Runs.Run(Stepper(), s, front);
      StepReports(t, last, w, since, generation);
    }
  }

  lemma StepReports(s: State, a: Action, w: nat, since: nat, generation: nat)
    requires WillReport(s, w, since, generation) && !(a.Wait? && a.i == w)
    ensures WillReport(Step(s, a), w, since, generation)
  {
  }

  lemma CalledReports(s: State, w: nat, since: nat)
    requires s.f.enabled && s.f.generation > since
    ensures WillReport(Step(s, Wait(w, since, true)), w, since, s.f.generation)
  {
  }

  lemma AnswerIsWake(s: State, w: nat, since: nat, generation: nat, timedOut: bool)
    requires WillReport(s, w, since, generation)
    ensures var answer := Step(s, WaiterMoves(w, timedOut)).waiters[w];
            answer.Woken? && answer.since == since && answer.generation >= generation
  {
  }

  /**
   Level-triggered: a worker that saw `since` and calls `wait` with a positive
   timeout on an enabled coordinator after newer events were pumped gets the
   wake, whatever happens between its call and its turn.  Once it is its turn
   the answer is there; errors that arrive meanwhile do not hide it.
   */
  lemma MissedEventIsReported(s: State, w: nat, since: nat, between: seq<Action>, timedOut: bool)
    requires s.f.enabled && s.f.generation > since
    requires forall k | 0 <= k < |between| :: !(between[k].Wait? && between[k].i == w)
    ensures var t := Runs.Run(Stepper(), Step(s, Wait(w, since, true)), between);
            && w in t.waiters
            && var answer := Step(t, WaiterMoves(w, timedOut)).waiters[w];
               answer.Woken? && answer.since == since && answer.generation >= s.f.generation
  {
    CalledReports(s, w, since);
    KeepsReporting(Step(s, Wait(w, since, true)), between, w, since, s.f.generation);
    AnswerIsWake(Runs.Run(Stepper(), Step(s, Wait(w, since, true)), between), w, since, s.f.generation, timedOut);
  }

  /** A call of `wait` gives up at once on a coordinator that is off, or for no time. */
  lemma WaitBegins(s: State, w: nat, since: nat, positive: bool)
    ensures Step(s, Wait(w, since, positive)).waiters
         == s.waiters[w := if s.f.enabled && positive then AtLock(since) else NotWoken(since)]
  {
  }

  /** At the lock, a newer generation comes before an error, and an error before the closing. */
  lemma WaitAnswersAtLock(s: State, w: nat, since: nat, timedOut: bool)
    requires w in s.waiters && s.waiters[w] == AtLock(since)
    ensures var answer := WaiterStep(s, w, timedOut).waiters[w];
            && answer.since == since && (answer.Woken? ==> answer.generation == s.f.generation)
            && (answer.Woken? <==> s.f.generation != since)
            && (answer.WaitRaised? <==> s.f.generation == since && s.f.error)
            && (answer.NotWoken? <==> s.f.generation == since && !s.f.error && s.f.closed)
            && (answer.Suspended? <==> s.f.generation == since && !s.f.error && !s.f.closed)
  {
  }

  /**
   A waiter sleeps on until there is something to tell or its time is over.  Then it
   is told of an error first, then of a newer generation; of the closing, or out of
   time, of nothing.
   */
  lemma WaitAnswersAfterSleep(s: State, w: nat, since: nat, timedOut: bool)
    requires w in s.waiters && s.waiters[w] == Suspended(since)
    ensures var answer := WaiterStep(s, w, timedOut).waiters[w];
            && answer.since == since && (answer.Woken? ==> answer.generation == s.f.generation)
            && (answer.WaitRaised? <==> !timedOut && s.f.error)
            && (answer.Woken? <==> !timedOut && !s.f.error && s.f.generation != since)
            && (answer.NotWoken? <==> timedOut || (!s.f.error && s.f.generation == since && s.f.closed))
            && (answer.Suspended? <==> !timedOut && !s.f.error && s.f.generation == since && !s.f.closed)
  {
  }

  // ------------------------------------------------ what undisturbed calls come to

  /** Nobody holds or queues for a lock, and no activation is under way. */
  predicate Calm(s: State) {
    s.lock.None? && !s.f.closed && s.f.activationTask.None? && NoneQueued(s.subscribers)
  }

  /** What the pump does with what it hears: an event is counted, a failure turns the coordinator off and starts a recovery. */
  lemma PumpAnswers(s: State, p: nat, heard: Heard)
    requires p < |s.pumps| && s.pumps[p].Listening? && !s.f.closed
    ensures var t := Step(s, PumpMoves(p, heard, false));
            var u := Step(t, PumpMoves(p, heard, false));
            && p < |u.pumps|
            && (heard.Event? ==> u == s.(f := s.f.(generation := s.f.generation + 1), pumped := s.pumped + 1))
            && (heard.Nothing? ==> u == s)
            && (heard.Failure? ==> u.f == s.f.(error := true, enabled := false) && u.pumps == s.pumps[p := Sleeping])
  {
    var t := Step(s, PumpMoves(p, heard, false));
    assert t == s.(pumps := s.pumps[p := match heard case Event => EventLock case Nothing => Pausing case Failure => ErrorLock]);
    var u := Step(t, PumpMoves(p, heard, false));
    assert u.pumps == s.pumps[p := if heard.Failure? then Sleeping else Listening];
    assert s.pumps[p := Listening] == s.pumps;
  }

  /** An activation starts, for a subscriber or a pump, as the task of the next number. */
  lemma OnceStarts(s: State)
    requires Calm(s)
    ensures OnceMoves(s, OnceLock, false)
         == Some((s.(f := s.f.(activationTask := Some(|s.activations|)), activations := s.activations + [Subscribing]),
                  Goes(OnceWait(|s.activations|))))
  {
  }

  /** The server takes the subscription and the coordinator is turned on. */
  lemma ActivationTurnsOn(s: State, t: nat)
    requires t < |s.activations| && s.activations[t].Subscribing? && !s.f.closed
    ensures Step(Step(s, ActivationMoves(t, true, false)), ActivationMoves(t, true, false))
         == s.(f := s.f.(error := false, enabled := true), activations := s.activations[t := Set(true)])
  {
    var u := Step(s, ActivationMoves(t, true, false));
    assert u == s.(activations := s.activations[t := SettingActive]);
    assert s.activations[t := SettingActive][t := Set(true)] == s.activations[t := Set(true)];
  }

  /** Whoever awaits it learns of it and takes the task out of the field. */
  lemma OnceLearns(s: State, t: nat)
    requires t < |s.activations| && s.activations[t] == Set(true) && s.lock.None? && !s.f.closed && s.f.activationTask == Some(t)
    ensures OnceMoves(s, OnceWait(t), false) == Some((s, Goes(OnceClear(t, Gives(true)))))
    ensures OnceMoves(s, OnceClear(t, Gives(true)), false) == Some((s.(f := s.f.(activationTask := None)), Ends(Gives(true))))
  {
  }

  /**
   What whoever awaits the shared activation is told.  A cancellation, its own or the
   task's, is raised, but answered with false once closed; a task that was set tells
   its own answer, one that broke its error.  A task that is still live is left
   where it is, one that is done is taken out of the field next.
   */
  lemma OnceAnswers(s: State, t: nat, cancelled: bool)
    requires t < |s.activations| && (cancelled || !s.activations[t].Live())
    ensures var (told, x) := (OnceMoves(s, OnceWait(t), cancelled), s.activations[t]);
            && told.Some? && told.value.0 == s
            && (x.Live() <==> told.value.1.Ends?) && (!x.Live() <==> told.value.1.Goes? && told.value.1.once.OnceClear?)
            && var outcome := if told.value.1.Ends? then told.value.1.outcome else told.value.1.once.outcome;
               && (outcome == Throws(true) <==> !s.f.closed && (cancelled || x.ActivationCancelled?))
               && (outcome == Throws(false) <==> !cancelled && x.Broken?)
               && (outcome == Gives(true) <==> !cancelled && x == Set(true))
               && (outcome == Gives(false) <==> (s.f.closed && (cancelled || x.ActivationCancelled?)) || (!cancelled && x == Set(false)))
  {
  }

  /** Then it takes the task out of the field, if it is still there, and says true only on an open coordinator. */
  lemma OnceEnds(s: State, t: nat, outcome: Outcome)
    requires s.lock.None?
    ensures var done := OnceMoves(s, OnceClear(t, outcome), false);
            && done.Some? && done.value.1.Ends?
            && done.value.0.f.activationTask == (if s.f.activationTask == Some(t) then None else s.f.activationTask)
            && (outcome.Throws? ==> done.value.1.outcome == outcome)
            && (outcome.Gives? ==> done.value.1.outcome == Gives(outcome.ok && !s.f.closed))
  {
  }

  /** Broken, it makes a subscriber raise and a pump that recovers note the error and sleep again. */
  lemma BrokenActivation(s: State, i: nat, p: nat, t: nat)
    requires !s.f.closed && s.lock.None?
    ensures i in s.subscribers && s.subscribers[i] == Activating(OnceClear(t, Throws(false))) ==>
              SubscriberStep(s, i, false).subscribers[i] == Raised
    ensures p < |s.pumps| && s.pumps[p] == Recovering(OnceClear(t, Throws(false))) ==>
              PumpStep(s, p, Nothing, false).pumps[p] == RecoverErrorLock
    ensures p < |s.pumps| && s.pumps[p] == RecoverErrorLock ==>
              && PumpStep(s, p, Nothing, false).pumps[p] == Sleeping
              && PumpStep(s, p, Nothing, false).f == s.f.(error := true)
  {
  }

  /** What one finished activation leaves: a coordinator that is on, without error, and one more task that is done. */
  function TurnedOn(s: State): State {
    s.(f := s.f.(error := false, enabled := true, activationTask := None), activations := s.activations + [Set(true)])
  }

  /** The run of a pump that recovers, undisturbed. */
  function Recovery(p: nat, t: nat): seq<Action> {
    [PumpMoves(p, Nothing, false), PumpMoves(p, Nothing, false), ActivationMoves(t, true, false), ActivationMoves(t, true, false)]
    + [PumpMoves(p, Nothing, false), PumpMoves(p, Nothing, false)]
  }

  lemma RecoveryStarts(s: State, p: nat)
    requires Calm(s) && p < |s.pumps| && s.pumps[p].Sleeping?
    ensures Step(Step(s, PumpMoves(p, Nothing, false)), PumpMoves(p, Nothing, false))
         == s.(f := s.f.(activationTask := Some(|s.activations|)), activations := s.activations + [Subscribing],
               pumps := s.pumps[p := Recovering(OnceWait(|s.activations|))])
  {
    var u := Step(s, PumpMoves(p, Nothing, false));
    assert u == s.(pumps := s.pumps[p := Recovering(OnceLock)]);
    OnceStarts(u);
    assert s.pumps[p := Recovering(OnceLock)][p := Recovering(OnceWait(|s.activations|))]
        == s.pumps[p := Recovering(OnceWait(|s.activations|))];
  }

  lemma RecoveryEnds(s: State, p: nat, t: nat)
    requires p < |s.pumps| && s.pumps[p] == Recovering(OnceWait(t))
    requires t < |s.activations| && s.activations[t] == Set(true) && s.lock.None? && !s.f.closed && s.f.activationTask == Some(t)
    ensures Step(Step(s, PumpMoves(p, Nothing, false)), PumpMoves(p, Nothing, false))
         == s.(f := s.f.(activationTask := None), pumps := s.pumps[p := Listening])
  {
    OnceLearns(s, t);
    var u := Step(s, PumpMoves(p, Nothing, false));
    assert u == s.(pumps := s.pumps[p := Recovering(OnceClear(t, Gives(true)))]);
    OnceLearns(u, t);
    assert s.pumps[p := Recovering(OnceClear(t, Gives(true)))][p := Listening] == s.pumps[p := Listening];
  }

  /**
   Undisturbed, a pump that lost its subscription activates once more and listens
   again, on a coordinator that is on and without error.
   */
  lemma RecoveryRestores(s: State, p: nat)
    requires Calm(s) && p < |s.pumps| && s.pumps[p].Sleeping?
    ensures Runs.Run(Stepper(), s, Recovery(p, |s.activations|)) == TurnedOn(s).(pumps := s.pumps[p := Listening])
  {
    var t, actions := |s.activations|, Recovery(p, |s.activations|);
    var s1 := Step(s, actions[0]);
    var s2 := Step(s1, actions[1]);
    RecoveryStarts(s, p);
    var s3 := Step(s2, actions[2]);
    var s4 := Step(s3, actions[3]);
    ActivationTurnsOn(s2, t);
    assert s2.activations[t := Set(true)] == s.activations + [Set(true)];
    var s5 := Step(s4, actions[4]);
    var s6 := Step(s5, actions[5]);
    RecoveryEnds(s4, p, t);
    assert s2.pumps[p := Listening] == s.pumps[p := Listening];
    Runs.RunAlong(Stepper(), [s, s1, s2, s3, s4, s5, s6], actions);
  }

  lemma SubscriptionStarts(s: State, i: nat)
    requires Calm(s) && s.f.acquired && !(s.f.subscribed && PumpLive(s)) && i !in s.subscribers
    ensures Step(Step(Step(s, Subscribe(i)), TakeFirstLock(i, true)), SubscriberMoves(i, false))
         == s.(f := s.f.(activationTask := Some(|s.activations|)), activations := s.activations + [Subscribing],
               subscribers := s.subscribers[i := Activating(OnceWait(|s.activations|))])
  {
    var u := Step(Step(s, Subscribe(i)), TakeFirstLock(i, true));
    assert u == s.(subscribers := s.subscribers[i := Activating(OnceLock)]);
    assert OnceMoves(u, OnceLock, false)
        == Some((u.(f := u.f.(activationTask := Some(|u.activations|)), activations := u.activations + [Subscribing]),
                 Goes(OnceWait(|u.activations|))));
  }

  lemma SubscriptionGoesOn(s: State, i: nat, t: nat)
    requires i in s.subscribers && s.subscribers[i] == Activating(OnceWait(t))
    requires t < |s.activations| && s.activations[t] == Set(true) && s.lock.None? && !s.f.closed && s.f.activationTask == Some(t)
    ensures Step(Step(s, SubscriberMoves(i, false)), SubscriberMoves(i, false))
         == s.(f := s.f.(activationTask := None), subscribers := s.subscribers[i := SecondLock])
  {
    OnceLearns(s, t);
    var u := Step(s, SubscriberMoves(i, false));
    assert u == s.(subscribers := s.subscribers[i := Activating(OnceClear(t, Gives(true)))]);
    OnceLearns(u, t);
  }

  lemma SubscriptionEnds(s: State, i: nat)
    requires i in s.subscribers && s.subscribers[i].SecondLock? && s.lock.None? && !s.f.closed
    ensures Step(Step(s, SubscriberMoves(i, false)), SubscriberMoves(i, false))
         == StartPump(s.(f := s.f.(subscribed := true))).(subscribers := s.subscribers[i := Returned(true)])
  {
    var u := Step(s, SubscriberMoves(i, false));
    assert u == s.(f := s.f.(subscribed := true), subscribers := s.subscribers[i := ThirdLock]);
  }

  lemma TwoSteps(s: State, a: Action, b: Action, t: State)
    requires Step(Step(s, a), b) == t
    ensures Runs.Run(Stepper(), s, [a, b]) == t
  {
    Runs.RunAlong(Stepper(), [s, Step(s, a), t], [a, b]);
  }

  lemma FourParts(s: State, a: seq<Action>, b: seq<Action>, c: seq<Action>, d: seq<Action>, s1: State, s2: State, s3: State, s4: State)
    requires Runs.Run(Stepper(), s, a) == s1 && Runs.Run(Stepper(), s1, b) == s2
    requires Runs.Run(Stepper(), s2, c) == s3 && Runs.Run(Stepper(), s3, d) == s4
    ensures Runs.Run(Stepper(), s, a + b + c + d) == s4
  {
    Runs.RunComposes(Stepper(), s, a, b);
    Runs.RunComposes(Stepper(), s, a + b, c);
    Runs.RunComposes(Stepper(), s, a + b + c, d);
  }

  function Starting(i: nat): seq<Action> { [Subscribe(i), TakeFirstLock(i, true), SubscriberMoves(i, false)] }
  function TurningOn(t: nat): seq<Action> { [ActivationMoves(t, true, false), ActivationMoves(t, true, false)] }
  function MovingOn(i: nat): seq<Action> { [SubscriberMoves(i, false), SubscriberMoves(i, false)] }

  /** The run of a subscriber, undisturbed, on a coordinator that has its client. */
  function Subscription(i: nat, t: nat): seq<Action> { Starting(i) + TurningOn(t) + MovingOn(i) + MovingOn(i) }

  /** Its three stations, and what it leaves: turned on, subscribed, and a pump, the live one or a new one. */
  function Started(s: State, i: nat): State {
    s.(f := s.f.(activationTask := Some(|s.activations|)), activations := s.activations + [Subscribing],
       subscribers := s.subscribers[i := Activating(OnceWait(|s.activations|))])
  }

  function Activated(s: State, i: nat): State {
    Started(s, i).(f := s.f.(activationTask := Some(|s.activations|), error := false, enabled := true),
                   activations := s.activations + [Set(true)])
  }

  function Accepted(s: State, i: nat): State { TurnedOn(s).(subscribers := s.subscribers[i := SecondLock]) }

  function AfterSubscription(s: State, i: nat): State {
    StartPump(TurnedOn(s).(f := TurnedOn(s).f.(subscribed := true))).(subscribers := s.subscribers[i := Returned(true)])
  }

  lemma FirstPart(s: State, i: nat)
    requires Calm(s) && s.f.acquired && !(s.f.subscribed && PumpLive(s)) && i !in s.subscribers
    ensures Runs.Run(Stepper(), s, Starting(i)) == Started(s, i)
  {
    SubscriptionStarts(s, i);
    var s1 := Step(s, Subscribe(i));
    Runs.RunAlong(Stepper(), [s, s1, Step(s1, TakeFirstLock(i, true)), Started(s, i)], Starting(i));
  }

  lemma SecondPart(s: State, i: nat)
    requires !s.f.closed
    ensures Runs.Run(Stepper(), Started(s, i), TurningOn(|s.activations|)) == Activated(s, i)
  {
    var t := |s.activations|;
    ActivationTurnsOn(Started(s, i), t);
    assert Started(s, i).activations[t := Set(true)] == s.activations + [Set(true)];
    TwoSteps(Started(s, i), ActivationMoves(t, true, false), ActivationMoves(t, true, false), Activated(s, i));
  }

  lemma ThirdPart(s: State, i: nat)
    requires Calm(s)
    ensures Runs.Run(Stepper(), Activated(s, i), MovingOn(i)) == Accepted(s, i)
  {
    SubscriptionGoesOn(Activated(s, i), i, |s.activations|);
    assert Activated(s, i).subscribers[i := SecondLock] == s.subscribers[i := SecondLock];
    TwoSteps(Activated(s, i), SubscriberMoves(i, false), SubscriberMoves(i, false), Accepted(s, i));
  }

  lemma FourthPart(s: State, i: nat)
    requires Calm(s)
    ensures Runs.Run(Stepper(), Accepted(s, i), MovingOn(i)) == AfterSubscription(s, i)
  {
    SubscriptionEnds(Accepted(s, i), i);
    assert Accepted(s, i).subscribers[i := Returned(true)] == s.subscribers[i := Returned(true)];
    TwoSteps(Accepted(s, i), SubscriberMoves(i, false), SubscriberMoves(i, false), AfterSubscription(s, i));
  }

  /**
   Undisturbed, `subscribe` on an open coordinator that has its client activates
   once and returns true: on, without error, subscribed, and with a live pump.
   */
  lemma SubscribeSucceeds(s: State, i: nat)
    requires Calm(s) && s.f.acquired && !(s.f.subscribed && PumpLive(s)) && i !in s.subscribers
    ensures var t := Runs.Run(Stepper(), s, Subscription(i, |s.activations|));
            && t.subscribers == s.subscribers[i := Returned(true)] && t.activations == s.activations + [Set(true)]
            && t.f.enabled && !t.f.error && t.f.subscribed && t.f.activationTask.None? && !t.f.closed
            && PumpLive(t) && t.pumps == (if PumpLive(s) then s.pumps else s.pumps + [PumpCreated])
  {
    SubscriptionReaches(s, i);
    SubscriptionLeaves(s, i);
  }

  lemma SubscriptionLeaves(s: State, i: nat)
    requires Calm(s) && s.f.acquired
    ensures var t := AfterSubscription(s, i);
            && t.subscribers == s.subscribers[i := Returned(true)] && t.activations == s.activations + [Set(true)]
            && t.f.enabled && !t.f.error && t.f.subscribed && t.f.activationTask.None? && !t.f.closed
            && PumpLive(t) && t.pumps == (if PumpLive(s) then s.pumps else s.pumps + [PumpCreated])
  {
  }

  lemma SubscriptionReaches(s: State, i: nat)
    requires Calm(s) && s.f.acquired && !(s.f.subscribed && PumpLive(s)) && i !in s.subscribers
    ensures Runs.Run(Stepper(), s, Subscription(i, |s.activations|)) == AfterSubscription(s, i)
  {
    FirstPart(s, i);
    SecondPart(s, i);
    ThirdPart(s, i);
    FourthPart(s, i);
    FourParts(s, Starting(i), TurningOn(|s.activations|), MovingOn(i), MovingOn(i),
              Started(s, i), Activated(s, i), Accepted(s, i), AfterSubscription(s, i));
  }

  /** A subscriber that finds it subscribed with a live pump starts nothing and reports whether it is on; after a close it gets false. */
  lemma SubscribeJoins(s: State, i: nat)
    requires s.f.acquired && s.lock.None? && s.f.subscribed && PumpLive(s) && i !in s.subscribers
    ensures Step(Step(s, Subscribe(i)), TakeFirstLock(i, true))
         == s.(subscribers := s.subscribers[i := Returned(!s.f.closed && s.f.enabled)])
  {
    if s.f.closed { assert Step(s, Subscribe(i)).subscribers == s.subscribers[i := Returned(false)]; }
  }

  /** Overtaken by a close, a subscriber returns false from every lock it still comes to, and changes nothing. */
  lemma OvertakenReturnsFalse(s: State, i: nat)
    requires s.f.closed && s.lock.None? && i in s.subscribers
    requires s.subscribers[i].SecondLock? || s.subscribers[i].ThirdLock? || s.subscribers[i] == Activating(OnceLock)
    ensures SubscriberStep(s, i, false) == s.(subscribers := s.subscribers[i := Returned(false)])
  {
  }

  /** The first subscriber takes the lock and acquires the client under it. */
  lemma FirstSubscriberAcquires(s: State, i: nat)
    requires Calm(s) && !s.f.acquired && i !in s.subscribers
    ensures Step(Step(s, Subscribe(i)), TakeFirstLock(i, true)) == s.(lock := Some(i), subscribers := s.subscribers[i := Acquiring])
  {
    assert Step(s, Subscribe(i)) == s.(subscribers := s.subscribers[i := FirstLock]);
    assert s.subscribers[i := FirstLock][i := Acquiring] == s.subscribers[i := Acquiring];
  }

  /** With the client it lets go of the lock and goes on, if the client can be used; without one it raises. */
  lemma AcquiringEnds(s: State, i: nat, owned: bool)
    requires i in s.subscribers && s.subscribers[i].Acquiring? && !s.f.subscribed
    ensures var acquired := s.(lock := None, f := s.f.(acquired := true, owns := owned),
                               ownedClients := s.ownedClients + (if owned then 1 else 0));
            && AcquiredStep(s, i, owned, true) == WithSubscriber(acquired, i, Activating(OnceLock))
            && AcquiredStep(s, i, owned, false) == WithSubscriber(acquired, i, Returned(false))
    ensures Step(s, AcquireFails(i)) == WithSubscriber(s.(lock := None), i, Raised)
  {
  }

  /** An undisturbed close without live tasks turns everything off, closes an owned client, and returns. */
  lemma CloseReturns(s: State, i: nat)
    requires Inv(s) && Calm(s) && !PumpLive(s) && s.closeLock.None? && i !in s.closers
    ensures var t := Step(Step(Step(Step(s, Close(i)), CloserMoves(i, true, false)), CloserMoves(i, true, false)),
                          CloserMoves(i, true, false));
            var u := if s.f.owns then Step(t, CloserMoves(i, true, false)) else t;
            && i in u.closers && u.closers[i].CloseReturned? && u.closeLock.None?
            && u.f.closed && !u.f.enabled && !u.f.subscribed && u.f.pumpTask.None? && !u.f.owns && u.clientCloses == u.ownedClients
  {
    var s1 := Step(s, Close(i));
    var s2 := Step(s1, CloserMoves(i, true, false));
    assert s2.closers[i].SealWait? && s2.f == s.f.(closed := true, enabled := false);
    var s3 := Step(s2, CloserMoves(i, true, false));
    assert s3.closers[i] == AwaitTasks(None, None);
    var s4 := Step(s3, CloserMoves(i, true, false));
    assert s4.closers[i] == if s.f.owns then ClosingClient else CloseReturned;
  }

  // ------------------------------------------------ the coordinator itself

  /** How many events the pump takes before it hears a failure. */
  function EventsBeforeFailure(heard: seq<Heard>): nat {
    if heard == [] || heard[0].Failure? then 0
    else (if heard[0].Event? then 1 else 0) + EventsBeforeFailure(heard[1..])
  }

  lemma {:induction false} EventsGrow(heard: seq<Heard>, n: nat)
    requires n < |heard| && Failure !in heard[..n]
    ensures EventsBeforeFailure(heard[..n + 1]) == EventsBeforeFailure(heard[..n]) + (if heard[n].Event? then 1 else 0)
    ensures heard[n].Failure? ==> EventsBeforeFailure(heard) == EventsBeforeFailure(heard[..n])
    decreases n
  {
    if n > 0 {
      assert heard[0] in heard[..n];
      assert heard[..n][1..] == heard[1..][..n - 1] && heard[..n + 1][1..] == heard[1..][..n];
      forall x | x in heard[1..][..n - 1] ensures x in heard[..n] {
      }
      EventsGrow(heard[1..], n - 1);
    } else {
      assert heard[..1][1..] == [] && heard[..0] == [];
    }
  }

  class AsyncFlowWakeCoordinator {
    var closed: bool
    var enabled: bool
    var subscribed: bool
    var clientAcquired: bool
    var ownsClient: bool
    var generation: nat
    var error: bool
    var pumpTask: Option<nat>
    var activationTask: Option<nat>

    ghost function View(): Fields
      reads this
    {
      Fields(closed, enabled, subscribed, clientAcquired, ownsClient, generation, error, pumpTask, activationTask)
    }

    constructor ()
      ensures View() == Initial().f
    {
      closed, enabled, subscribed, clientAcquired, ownsClient := false, false, false, false, false;
      generation, error, pumpTask, activationTask := 0, false, None, None;
    }

    /** The rest of the first locked section of `subscribe`, once the client is there. */
    method AfterEnsure(usable: bool, pumpLive: bool) returns (next: Subscriber)
      ensures next == AfterClient(View(), usable, pumpLive)
    {
      if !usable { return Returned(false); }
      if subscribed && pumpLive { return Returned(enabled); }
      return Activating(OnceLock);
    }

    method MarkSubscribed() returns (next: Subscriber)
      modifies this
      ensures (View(), next) == MarkedSubscribed(old(View()))
    {
      if closed { return Returned(false); }
      subscribed := true;
      return ThirdLock;
    }

    method EnsurePump(pumpLive: bool, newPump: nat) returns (ok: bool)
      modifies this
      ensures View() == PumpStarted(old(View()), pumpLive, newPump) && ok == !old(closed)
    {
      if closed { return false; }
      if !pumpLive { pumpTask := Some(newPump); }
      return true;
    }

    /** `_activate_once` under its first lock. */
    method ActivateOnce(activationLive: bool, newTask: nat) returns (next: OnceNext)
      modifies this
      ensures (View(), next) == OnceJoined(old(View()), activationLive, newTask)
    {
      if closed { return Ends(Gives(false)); }
      if activationTask.None? || !activationLive {
        activationTask := Some(newTask);
      }
      return Goes(OnceWait(activationTask.value));
    }

    /** The `finally` of `_activate_once` and its last line. */
    method ClearActivation(task: nat, outcome: Outcome) returns (result: Outcome)
      modifies this
      ensures View() == OnceCleared(old(View()), task) && result == OnceResult(old(View()), outcome)
    {
      if activationTask == Some(task) { activationTask := None; }
      if outcome.Throws? { return outcome; }
      return Gives(outcome.ok && !closed);
    }

    method Activate() returns (ok: bool)
      modifies this
      ensures (View(), ok) == SetActive(old(View()))
    {
      if closed { return false; }
      error := false;
      enabled := true;
      return true;
    }

    /** `wait` under the condition, before it suspends. */
    method WaitSection(since: nat) returns (next: Waiter)
      ensures next == WaitLocked(View(), since)
      ensures next.Woken? <==> generation != since
    {
      if generation != since { return Woken(since, generation); }
      if error { return WaitRaised(since); }
      if closed { return NotWoken(since); }
      return Suspended(since);
    }

    method PumpEvent() returns (next: Pump)
      modifies `generation
      ensures View() == old(View()).(generation := old(generation) + 1) && next == Head(closed)
    {
      generation := generation + 1;
      return if closed then PumpDone else Listening;
    }

    method BeginClose()
      modifies this
      ensures View() == CloseBegun(old(View()))
    {
      closed := true;
      enabled := false;
    }

    /**
     `subscribe` with nobody else about.  A subscription that succeeds leaves the
     coordinator open, enabled and subscribed with a pump, and no activation behind.
     */
    method SubscribeAlone(owned: bool, usable: bool, activates: bool, pumpLive: bool, newTask: nat, newPump: nat)
      returns (result: Subscriber)
      requires activationTask.None? && (pumpLive ==> pumpTask.Some?)
      modifies this
      ensures old(closed) ==> result == Returned(false) && View() == old(View())
      ensures closed == old(closed) && generation == old(generation) && activationTask.None?
      ensures result == Returned(true) ==> !closed && enabled && subscribed && pumpTask.Some?
      ensures result.Returned? && !result.ok ==> old(closed) || !usable || (old(subscribed) && pumpLive && !old(enabled))
      ensures result.Raised? <==> !old(closed) && usable && !(old(subscribed) && pumpLive) && !activates
      ensures !old(closed) ==> clientAcquired && ownsClient == (if old(clientAcquired) then old(ownsClient) else owned)
      ensures pumpTask == old(pumpTask) || (result == Returned(true) && !pumpLive && pumpTask == Some(newPump))
    {
      if closed { return Returned(false); }
      if !clientAcquired { clientAcquired, ownsClient := true, owned; }
      result := AfterEnsure(usable, pumpLive);
      if result.Returned? { return; }
      var once := ActivateOnce(false, newTask);
      var outcome := Throws(false);
      if activates {
        var ok := Activate();
        outcome := Gives(ok);
      }
      outcome := ClearActivation(newTask, outcome);
      if outcome.Throws? { return Raised; }
      result := MarkSubscribed();
      var ok := EnsurePump(pumpLive, newPump);
      return Returned(ok);
    }

    /** `_pump` with nobody else about, until it hears a failure: every event is counted, and nothing once closed. */
    method PumpAlone(heard: seq<Heard>) returns (next: Pump)
      modifies this
      ensures generation == old(generation) + (if old(closed) then 0 else EventsBeforeFailure(heard))
      ensures closed == old(closed) && subscribed == old(subscribed) && pumpTask == old(pumpTask)
      ensures next == (if closed then PumpDone else if Failure in heard then Sleeping else Listening)
      ensures next.Sleeping? ==> error && !enabled
      ensures !next.Sleeping? ==> error == old(error) && enabled == old(enabled)
    {
      if closed { return PumpDone; }
      next := Listening;
      for n := 0 to |heard|
        invariant View() == old(View()).(generation := old(generation) + EventsBeforeFailure(heard[..n]))
        invariant !closed && next.Listening? && Failure !in heard[..n]
      {
        EventsGrow(heard, n);
        assert heard[..n + 1] == heard[..n] + [heard[n]];
        match heard[n]
        case Event => next := PumpEvent();
        case Nothing =>
        case Failure =>
          error := true;
          enabled := false;
          return Sleeping;
      }
      assert heard[..|heard|] == heard;
    }

    /**
     `close` with nobody else about.  It returns only when the coordinator is off,
     its tasks are handed out to be awaited, and no client is owned.
     */
    method CloseAlone(closes: bool) returns (returned: bool, pump: Option<nat>, activation: Option<nat>)
      modifies this
      ensures closed && clientAcquired == old(clientAcquired) && generation == old(generation)
      ensures !old(closed) ==> !enabled && !subscribed && pumpTask.None? && activationTask.None?
                               && pump == old(pumpTask) && activation == old(activationTask)
      ensures returned ==> !ownsClient
      ensures !returned ==> !closes && old(ownsClient) && ownsClient
      ensures old(closed) && !old(ownsClient) ==> returned && View() == old(View())
    {
      pump, activation := None, None;
      if closed && !ownsClient { return true, pump, activation; }
      if !closed {
        BeginClose();
        pump, activation := TakeTasks();
      }
      if ownsClient {
        if !closes { return false, pump, activation; }
        ownsClient := false;
      }
      return true, pump, activation;
    }

    /** The locked section of `close`: takes the tasks out of the fields. */
    method TakeTasks() returns (pump: Option<nat>, activation: Option<nat>)
      modifies this
      ensures View() == Sealed(old(View())) && pump == old(pumpTask) && activation == old(activationTask)
    {
      pump, activation := pumpTask, activationTask;
      pumpTask, activationTask, subscribed := None, None, false;
    }
  }
}
