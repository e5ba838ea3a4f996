/**
 The claim-handle-finish loop of `AsyncQueueFlowWorker`.

 The loop claims a batch, runs the handlers, and finishes the batch; a batch of
 uniform successes may be completed by a fused complete-and-claim that
 prefetches the next one.  `stop` can come at any await, errors can escape from
 any await, and the task can be cancelled from outside.
 */
module QueueWorker {
  import opened Common
  import C = Completion
  import Runs

  type Job = C.Job
  type OnError = C.OnError

  datatype Config = Config(fuse: bool, fuseSupported: bool, claimsValues: bool, onError: OnError)

  datatype Totals = Totals(claimed: nat, completed: nat, retried: nat, failed: nat, claimCalls: nat)

  /** Where the loop task is suspended.  The jobs are the ones it holds in local variables. */
  datatype Place =
    | NotRunning(normally: bool)
    | Created                                              // `start` made the task, it has not run yet
    | Subscribing
    | Claiming
    | Handling(jobs: seq<Job>, calls: nat)
    | Finishing(jobs: seq<Job>, failures: nat, calls: nat)
    | Fusing(jobs: seq<Job>, calls: nat)
    | Idling

  datatype State = State(
    running: bool,
    stopped: bool,                   // the stop event
    place: Place,
    prefetched: seq<Job>,
    totals: Totals,
    cancelling: bool,                // `stop` has cancelled the task
    handed: seq<Job>,                // every job the server handed out, in order
    gone: seq<Job>,                  // every job the worker is through with, in order
    lost: nat,                       // how many of those were in hand when a run broke off
    claims: nat,                     // claims issued, fused ones included
    claimsAtStop: nat)

  datatype Action =
    | Begin
    | TaskStarts
    | Subscribed
    | ClaimReply(jobs: seq<Job>)
    | HandlersDone(failures: nat, mixed: bool)
    | FinishDone
    | FuseReply(jobs: seq<Job>)
    | IdleEnds
    | Stop(inside: bool)                                   // whether the loop task itself calls it
    | CancellationArrives
    | OutsideCancel
    | ErrorEscapes

  function HeldJobs(place: Place): seq<Job> {
    match place
    case Handling(jobs, _) => jobs
    case Finishing(jobs, _, _) => jobs
    case Fusing(jobs, _) => jobs
    case _ => []
  }

  /** The worker's `_phase` while it is suspended there. */
  datatype Phase = StoppedPhase | SubscribePhase | ClaimPhase | HandlePhase | FinishPhase | IdlePhase

  function PhaseOf(place: Place): Phase {
    match place
    case NotRunning(_) => StoppedPhase
    case Created => StoppedPhase
    case Subscribing => SubscribePhase
    case Claiming => ClaimPhase
    case Handling(_, _) => HandlePhase
    case Finishing(_, _, _) => FinishPhase
    case Fusing(_, _) => ClaimPhase
    case Idling => IdlePhase
  }

  predicate Cancellable(p: Phase) {
    p.SubscribePhase? || p.IdlePhase?
  }

  /** The head of the loop, up to the next await. */
  function LoopHead(s: State): State {
    if s.prefetched != [] then s.(place := Handling(s.prefetched, 0), prefetched := [])
    else if s.running then s.(place := Claiming, claims := s.claims + 1)
    else Ends(s, true)
  }

  /** The `finally` block: whatever is still in hand is nobody's any more. */
  function Ends(s: State, normally: bool): State {
    s.(running := false, place := NotRunning(normally), cancelling := false,
       gone := s.gone + HeldJobs(s.place), lost := s.lost + |HeldJobs(s.place)|)
  }

  /** A round settled all jobs in hand: the totals grow. */
  function Tallied(s: State, completed: nat, failures: nat, calls: nat, onError: OnError): State {
    var t := s.totals;
    s.(place := Idling,
       gone := s.gone + HeldJobs(s.place),
       totals := Totals(t.claimed + completed + failures, t.completed + completed,
                        t.retried + (if onError.FailJobs? then 0 else failures),
                        t.failed + (if onError.FailJobs? then failures else 0),
                        t.claimCalls + calls))
  }

  function RoundDone(s: State, completed: nat, failures: nat, calls: nat, onError: OnError): State {
    LoopHead(Tallied(s, completed, failures, calls, onError))
  }

  predicate CanFuse(c: Config, s: State, jobs: seq<Job>, failures: nat, mixed: bool) {
    s.running && !s.stopped && c.fuse && |jobs| > failures && !mixed && failures == 0 && !c.claimsValues && c.fuseSupported
  }

  function Step(c: Config, s: State, a: Action): State {
    match a
    case Begin =>
      if s.place.NotRunning? then s.(running := true, stopped := false, place := Created) else s
    case TaskStarts => if s.place.Created? then s.(place := Subscribing) else s
    case Subscribed => if s.place.Subscribing? then LoopHead(s.(place := Idling, cancelling := false)) else s
    case ClaimReply(jobs) =>
      if !s.place.Claiming? then s
      else if jobs == [] then
        s.(place := Idling, totals := s.totals.(claimCalls := s.totals.claimCalls + 1))
      else s.(place := Handling(jobs, 1), handed := s.handed + jobs)
    case HandlersDone(failures, mixed) =>
      if !s.place.Handling? || failures > |s.place.jobs| then s
      else if CanFuse(c, s, s.place.jobs, failures, mixed) then
        s.(place := Fusing(s.place.jobs, s.place.calls), claims := s.claims + 1)
      else s.(place := Finishing(s.place.jobs, failures, s.place.calls))
    case FinishDone =>
      if !s.place.Finishing? || s.place.failures > |s.place.jobs| then s
      else if s.place.failures > 0 && c.onError.RaiseErrors? then Ends(s, false)
      else RoundDone(s, |s.place.jobs| - s.place.failures, s.place.failures, s.place.calls, c.onError)
    case FuseReply(jobs) =>
      if !s.place.Fusing? then s
      else RoundDone(s.(prefetched := jobs, handed := s.handed + jobs),
                     |s.place.jobs|, 0, s.place.calls + 1, C.RetryJobs)
    case IdleEnds => if s.place.Idling? then LoopHead(s.(cancelling := false)) else s
    case Stop(inside) =>
      s.(running := false, stopped := true,
         claimsAtStop := if s.stopped then s.claimsAtStop else s.claims,
         cancelling := s.cancelling || (!inside && Cancellable(PhaseOf(s.place))))
    case CancellationArrives => if s.cancelling then Ends(s, s.stopped) else s
    case OutsideCancel =>
      // A task cancelled before its first step is finished without a line of it having run.
      if s.place.NotRunning? then s
      else if s.place.Created? then s.(place := NotRunning(false)) else Ends(s, s.stopped)
    case ErrorEscapes => if s.place.NotRunning? || s.place.Created? then s else Ends(s, false)
  }

  function Stepper(c: Config): (State, Action) -> State {
    (s: State, a: Action) => Step(c, s, a)
  }

  function Initial(): State {
    State(false, false, NotRunning(true), [], Totals(0, 0, 0, 0, 0), false,
          [], [], 0, 0, 0)
  }

  // ------------------------------------------------ what every await sees

  /** Every job handed out is through, in hand, or prefetched: in order, none twice, none missing. */
  ghost predicate JobsConserved(s: State) {
    s.handed == s.gone + HeldJobs(s.place) + s.prefetched
  }

  /** Every job claimed was completed, retried or failed; only lost jobs are through without being counted. */
  predicate CountsAddUp(s: State) {
    && s.totals.claimed == s.totals.completed + s.totals.retried + s.totals.failed
    && s.totals.claimed + s.lost == |s.gone|
  }

  /** After `stop`, and until the next run begins, no claim is issued beyond one already under way. */
  predicate NoClaimAfterStop(s: State) {
    s.stopped ==> !s.running && s.claims == s.claimsAtStop
  }

  /** `stop` cancels only where no claimed job is held. */
  predicate CancelsHoldNothing(s: State) {
    s.cancelling ==> s.stopped && HeldJobs(s.place) == [] && s.prefetched == []
                     && Cancellable(PhaseOf(s.place))
  }

  predicate PlaceOk(place: Place) {
    match place
    case Handling(jobs, _) => jobs != []
    case Finishing(jobs, failures, _) => jobs != [] && failures <= |jobs|
    case Fusing(jobs, _) => jobs != []
    case _ => true
  }

  ghost predicate Inv(s: State) {
    && JobsConserved(s) && CountsAddUp(s) && NoClaimAfterStop(s) && CancelsHoldNothing(s)
    && s.prefetched == [] && PlaceOk(s.place)
  }

  /** What holds inside the loop body, where a batch may be prefetched. */
  ghost predicate MidLoop(s: State) {
    && JobsConserved(s)
    && CountsAddUp(s) && NoClaimAfterStop(s) && !s.cancelling
  }

  lemma LoopHeadKeeps(s: State)
    requires MidLoop(s) && HeldJobs(s.place) == []
    ensures Inv(LoopHead(s))
  {
  }

  lemma RoundKeeps(s: State, completed: nat, failures: nat, calls: nat, onError: OnError)
    requires MidLoop(s) && completed + failures == |HeldJobs(s.place)|
    ensures Inv(RoundDone(s, completed, failures, calls, onError))
  {
    LoopHeadKeeps(Tallied(s, completed, failures, calls, onError));
  }

  lemma EndKeeps(s: State, normally: bool)
    requires Inv(s)
    ensures Inv(Ends(s, normally))
  {
  }

  lemma ReplyKeeps(c: Config, s: State, a: Action)
    requires Inv(s) && (a.ClaimReply? || a.HandlersDone? || a.Begin? || a.TaskStarts? || a.Stop?)
    ensures Inv(Step(c, s, a))
  {
  }

  lemma FinishKeeps(c: Config, s: State)
    requires Inv(s) && s.place.Finishing?
    ensures Inv(Step(c, s, FinishDone))
  {
    if s.place.failures > 0 && c.onError.RaiseErrors? {
      EndKeeps(s, false);
    } else {
      RoundKeeps(s, |s.place.jobs| - s.place.failures, s.place.failures, s.place.calls, c.onError);
    }
  }

  lemma FuseKeeps(c: Config, s: State, jobs: seq<Job>)
    requires Inv(s) && s.place.Fusing?
    ensures Inv(Step(c, s, FuseReply(jobs)))
  {
    var s' := s.(prefetched := jobs, handed := s.handed + jobs);
    RoundKeeps(s', |s.place.jobs|, 0, s.place.calls + 1, C.RetryJobs);
  }

  lemma StepKeepsInv(c: Config, s: State, a: Action)
    requires Inv(s)
    ensures Inv(Step(c, s, a))
  {
    match a
    case Subscribed => if s.place.Subscribing? { LoopHeadKeeps(s.(place := Idling, cancelling := false)); }
    case IdleEnds => if s.place.Idling? { LoopHeadKeeps(s.(cancelling := false)); }
    case FinishDone => if s.place.Finishing? { FinishKeeps(c, s); }
    case FuseReply(jobs) => if s.place.Fusing? { FuseKeeps(c, s, jobs); }
    case CancellationArrives => EndKeeps(s, s.stopped);
    case OutsideCancel => EndKeeps(s, s.stopped);
    case ErrorEscapes => EndKeeps(s, false);
    case _ => ReplyKeeps(c, s, a);
  }

  lemma InitialOk()
    ensures Inv(Initial()) && Initial().lost == 0
  {
  }

  /** The state after a run. */
  function Reached(c: Config, actions: seq<Action>): State {
    Runs.Run(Stepper(c), Initial(), actions)
  }

  lemma ReachedNext(c: Config, actions: seq<Action>, k: nat)
    requires k < |actions|
    ensures Reached(c, actions[..k + 1]) == Step(c, Reached(c, actions[..k]), actions[k])
  {
    assert actions[..k + 1][..k] == actions[..k];
  }

  /**
   In every run, at every await: jobs are conserved, totals add up, nothing is
   claimed after `stop`, `stop` cancels only where nothing is held, and nothing
   is prefetched outside the loop head, so neither on exit.
   */
  lemma WorkerConservesJobs(c: Config, actions: seq<Action>)
    ensures Inv(Reached(c, actions))
  {
    ConservedUpTo(c, actions, |actions|);
    assert actions[..|actions|] == actions;
  }

  lemma {:induction false} ConservedUpTo(c: Config, actions: seq<Action>, k: nat)
    requires k <= |actions|
    ensures Inv(Reached(c, actions[..k]))
    decreases k
  {
    if k == 0 {
      assert actions[..0] == [];
      InitialOk();
    } else {
      ConservedUpTo(c, actions, k - 1);
      ReachedNext(c, actions, k - 1);
      StepKeepsInv(c, Reached(c, actions[..k - 1]), actions[k - 1]);
    }
  }

  // ------------------------------------------------ when jobs are lost

  /** The step breaks a run off with jobs in hand. */
  predicate Loses(c: Config, s: State, a: Action) {
    || ((a.ErrorEscapes? || a.OutsideCancel?) && HeldJobs(s.place) != [])
    || (a.FinishDone? && s.place.Finishing? && s.place.failures > 0 && c.onError.RaiseErrors?)
  }

  lemma LossStep(c: Config, s: State, a: Action)
    requires Inv(s)
    ensures Step(c, s, a).lost >= s.lost
    ensures Step(c, s, a).lost > s.lost <==> Loses(c, s, a)
  {
  }

  ghost predicate NeverLoses(c: Config, actions: seq<Action>) {
    forall k | 0 <= k < |actions| :: !Loses(c, Reached(c, actions[..k]), actions[k])
  }

  lemma {:induction false} NothingLostUpTo(c: Config, actions: seq<Action>, k: nat)
    requires k <= |actions| && forall j | 0 <= j < k :: !Loses(c, Reached(c, actions[..j]), actions[j])
    ensures Reached(c, actions[..k]).lost == 0
    decreases k
  {
    if k == 0 {
      assert actions[..0] == [];
      InitialOk();
    } else {
      NothingLostUpTo(c, actions, k - 1);
      ConservedUpTo(c, actions, k - 1);
      ReachedNext(c, actions, k - 1);
      LossStep(c, Reached(c, actions[..k - 1]), actions[k - 1]);
    }
  }

  lemma {:induction false} LossesStay(c: Config, actions: seq<Action>, j: nat, k: nat)
    requires j <= k <= |actions|
    ensures Reached(c, actions[..j]).lost <= Reached(c, actions[..k]).lost
    decreases k
  {
    if j < k {
      LossesStay(c, actions, j, k - 1);
      ConservedUpTo(c, actions, k - 1);
      ReachedNext(c, actions, k - 1);
      LossStep(c, Reached(c, actions[..k - 1]), actions[k - 1]);
    }
  }

  /**
   Exactly when jobs are lost: a run loses none if and only if no error escapes
   and no outside cancellation comes while jobs are in hand, and no failure is
   raised out of a finished batch.
   */
  lemma NothingLostIff(c: Config, actions: seq<Action>)
    ensures Reached(c, actions).lost == 0 <==> NeverLoses(c, actions)
  {
    assert actions[..|actions|] == actions;
    if NeverLoses(c, actions) {
      NothingLostUpTo(c, actions, |actions|);
    } else {
      var k :| 0 <= k < |actions| && Loses(c, Reached(c, actions[..k]), actions[k]);
      ConservedUpTo(c, actions, k);
      ReachedNext(c, actions, k);
      LossStep(c, Reached(c, actions[..k]), actions[k]);
      LossesStay(c, actions, k + 1, |actions|);
    }
  }

  lemma StoppedHoldsNothing(s: State)
    requires Inv(s) && s.place.NotRunning?
    ensures s.handed == s.gone && |s.handed| == s.totals.claimed + s.lost
  {
  }

  /**
   A worker that is not running is through with every job it was handed; it has
   counted all of them as completed, retried or failed if and only if the run
   never lost any.
   */
  lemma SettlesEverythingIff(c: Config, actions: seq<Action>)
    requires Reached(c, actions).place.NotRunning?
    ensures var s := Reached(c, actions);
            s.handed == s.gone && (s.totals.completed + s.totals.retried + s.totals.failed == |s.handed| <==> NeverLoses(c, actions))
  {
    WorkerConservesJobs(c, actions);
    StoppedHoldsNothing(Reached(c, actions));
    NothingLostIff(c, actions);
  }

  /**
   Of all steps, exactly one ends a run normally and yet loses jobs: an outside
   cancellation after `stop` with jobs in hand.
   */
  lemma NormalEndLosesIff(c: Config, s: State, a: Action)
    requires Inv(s) && !s.place.NotRunning?
    ensures var t := Step(c, s, a);
            t.place == NotRunning(true) && t.lost > s.lost <==> a.OutsideCancel? && s.stopped && HeldJobs(s.place) != []
  {
    LossStep(c, s, a);
  }

  /** Such a run, from the start: a job claimed, `stop`, and a cancellation while it is handled. */
  lemma StoppedAndCancelledLosesJob(c: Config, job: Job) returns (actions: seq<Action>)
    ensures var s := Reached(c, actions); s.place == NotRunning(true) && s.lost == 1 && s.handed == [job] && s.totals.claimed == 0
  {
    actions := [Begin, TaskStarts, Subscribed, ClaimReply([job]), Stop(false), OutsideCancel];
    var s0 := Initial();
    var s1 := s0.(running := true, place := Created);
    var s2 := s1.(place := Subscribing);
    var s3 := s2.(place := Claiming, claims := 1);
    var s4 := s3.(place := Handling([job], 1), handed := [job]);
    var s5 := s4.(running := false, stopped := true, claimsAtStop := 1);
    var s6 := s5.(place := NotRunning(true), gone := [job], lost := 1);
    assert [] + [job] == [job];
    assert Step(c, s4, Stop(false)) == s5;
    assert Step(c, s5, OutsideCancel) == s6;
    Runs.RunAlong(Stepper(c), [s0, s1, s2, s3, s4, s5, s6], actions);
  }

  /** A worker that has ended is still marked running exactly when its task was cancelled before its first step. */
  lemma EndsMarkedRunningIff(c: Config, s: State, a: Action)
    requires !s.place.NotRunning?
    ensures var t := Step(c, s, a);
            t.place.NotRunning? && t.running <==> a.OutsideCancel? && s.place.Created? && s.running
  {
  }

  // ------------------------------------------------ how the loop goes on

  /** A handled batch is completed by the fused command exactly when it may be and all of it went the same way. */
  lemma FusesIff(c: Config, s: State, jobs: seq<Job>, calls: nat, failures: nat, mixed: bool)
    requires s.place == Handling(jobs, calls) && jobs != [] && failures <= |jobs|
    ensures var t := Step(c, s, HandlersDone(failures, mixed));
            var fuses := s.running && !s.stopped && c.fuse && !c.claimsValues && c.fuseSupported && failures == 0 && !mixed;
            && (fuses ==> t == s.(place := Fusing(jobs, calls), claims := s.claims + 1))
            && (!fuses ==> t == s.(place := Finishing(jobs, failures, calls)))
  {
  }

  /** Behind a round the loop handles what was prefetched, even after `stop`; else it claims while running, and else it ends. */
  lemma LoopGoesOn(c: Config, s: State, a: Action)
    requires Inv(s)
    requires (s.place.Finishing? && a.FinishDone? && (s.place.failures == 0 || !c.onError.RaiseErrors?))
             || (s.place.Fusing? && a.FuseReply?) || (s.place.Idling? && a.IdleEnds?) || (s.place.Subscribing? && a.Subscribed?)
    ensures var t := Step(c, s, a);
            if a.FuseReply? && a.jobs != [] then t.place == Handling(a.jobs, 0) && t.claims == s.claims
            else if s.running then t.place == Claiming && t.claims == s.claims + 1
            else t.place == NotRunning(true) && t.claims == s.claims && t.lost == s.lost
  {
  }

  /** A claim's jobs are handled; an empty claim idles. */
  lemma ClaimGoesOn(c: Config, s: State, jobs: seq<Job>)
    requires s.place.Claiming?
    ensures Step(c, s, ClaimReply(jobs)).place == if jobs == [] then Idling else Handling(jobs, 1)
  {
  }

  /** `stop` clears running, and asks the task to cancel exactly when another task calls it in the subscribe or idle phase. */
  lemma StopAnswers(c: Config, s: State, inside: bool)
    ensures var t := Step(c, s, Stop(inside));
            && !t.running && t.stopped && t.place == s.place
            && (t.cancelling <==> s.cancelling || (!inside && (s.place.Subscribing? || s.place.Idling?)))
  {
  }

  /** How a run ends that is broken off: with the error, or with a cancellation that is swallowed exactly after `stop`. */
  lemma BreaksEnd(c: Config, s: State)
    requires Inv(s) && !s.place.NotRunning?
    ensures Step(c, s, OutsideCancel).place == NotRunning(!s.place.Created? && s.stopped)
    ensures s.cancelling ==> Step(c, s, CancellationArrives).place == NotRunning(true)
    ensures !s.cancelling ==> Step(c, s, CancellationArrives) == s
    ensures Step(c, s, ErrorEscapes).place == if s.place.Created? then Created else NotRunning(false)
    ensures !s.place.Created? ==> !Step(c, s, OutsideCancel).running && !Step(c, s, ErrorEscapes).running
  {
  }

  /** The claims whose replies are not in the totals yet. */
  function OpenCalls(place: Place): nat {
    match place
    case Claiming => 1
    case Handling(_, calls) => calls
    case Finishing(_, _, calls) => calls
    case Fusing(_, calls) => calls + 1
    case _ => 0
  }

  /** Failures count as failed jobs only under "fail", as retried ones only under "retry"; no claim is counted that was not made. */
  predicate CountedByPolicy(c: Config, s: State) {
    && (c.onError.FailJobs? ==> s.totals.retried == 0)
    && (c.onError.RetryJobs? ==> s.totals.failed == 0)
    && (c.onError.RaiseErrors? ==> s.totals.retried == 0 && s.totals.failed == 0)
    && s.totals.claimCalls + OpenCalls(s.place) <= s.claims
  }

  lemma HeadCountsByPolicy(c: Config, s: State)
    requires CountedByPolicy(c, s) && OpenCalls(s.place) == 0
    ensures CountedByPolicy(c, LoopHead(s))
  {
  }

  lemma RoundCountsByPolicy(c: Config, s: State, completed: nat, failures: nat, calls: nat, onError: OnError)
    requires CountedByPolicy(c, s) && calls <= OpenCalls(s.place)
    requires failures == 0 || (onError == c.onError && !onError.RaiseErrors?)
    ensures CountedByPolicy(c, RoundDone(s, completed, failures, calls, onError))
  {
    HeadCountsByPolicy(c, Tallied(s, completed, failures, calls, onError));
  }

  lemma FinishCountsByPolicy(c: Config, s: State)
    requires CountedByPolicy(c, s)
    ensures CountedByPolicy(c, Step(c, s, FinishDone))
  {
    if s.place.Finishing? && s.place.failures <= |s.place.jobs| && (s.place.failures == 0 || !c.onError.RaiseErrors?) {
      RoundCountsByPolicy(c, s, |s.place.jobs| - s.place.failures, s.place.failures, s.place.calls, c.onError);
    }
  }

  lemma FuseCountsByPolicy(c: Config, s: State, jobs: seq<Job>)
    requires CountedByPolicy(c, s)
    ensures CountedByPolicy(c, Step(c, s, FuseReply(jobs)))
  {
    if s.place.Fusing? {
      RoundCountsByPolicy(c, s.(prefetched := jobs, handed := s.handed + jobs), |s.place.jobs|, 0, s.place.calls + 1, C.RetryJobs);
    }
  }

  lemma StepCountsByPolicy(c: Config, s: State, a: Action)
    requires CountedByPolicy(c, s)
    ensures CountedByPolicy(c, Step(c, s, a))
  {
    match a
    case FinishDone => FinishCountsByPolicy(c, s);
    case FuseReply(jobs) => FuseCountsByPolicy(c, s, jobs);
    case Subscribed => if s.place.Subscribing? { HeadCountsByPolicy(c, s.(place := Idling, cancelling := false)); }
    case IdleEnds => if s.place.Idling? { HeadCountsByPolicy(c, s.(cancelling := false)); }
    case _ =>
  }

  lemma {:induction false} FailuresCountedByPolicy(c: Config, actions: seq<Action>)
    ensures CountedByPolicy(c, Reached(c, actions))
    decreases |actions|
  {
    if actions != [] {
      var n := |actions| - 1;
      FailuresCountedByPolicy(c, actions[..n]);
      StepCountsByPolicy(c, Reached(c, actions[..n]), actions[n]);
    }
  }

  // ------------------------------------------------ the worker itself

  /** What a handler makes of one job. */
  datatype Verdict = Good(value: C.Value) | Bad(error: C.Error)

  /** One round as the environment plays it; `stopIn` is the await during which `stop` is called, if any. */
  datatype Round = Round(claimed: seq<Job>, handle: Job -> Verdict, next: seq<Job>, stopIn: Option<Phase>)

  function Handled(jobs: seq<Job>, handle: Job -> Verdict): (r: seq<C.Outcome>)
    ensures |r| == |jobs| && C.JobsOf(r) == jobs
    ensures forall i | 0 <= i < |jobs| :: r[i].Succeeded? <==> handle(jobs[i]).Good?
  {
    seq(|jobs|, i requires 0 <= i < |jobs| =>
      match handle(jobs[i])
      case Good(value) => C.Succeeded(jobs[i], value)
      case Bad(error) => C.Failed(jobs[i], error))
  }

  /** The totals count the mutations that were sent, and the jobs gone are the jobs mutated, each once. */
  ghost predicate TotalsAreSent(totals: Totals, gone: seq<Job>, sent: seq<C.Mutation>) {
    C.Tallies(sent, gone, C.Finished(totals.completed, totals.retried, totals.failed)) && totals.claimed == |gone|
  }

  lemma NothingSent(sent: seq<C.Mutation>)
    requires |sent| == 0
    ensures TotalsAreSent(Totals(0, 0, 0, 0, 0), [], sent)
  {
    C.NothingTallies(sent);
  }

  function Tally(t: Totals, claimed: nat, done: C.Finished, calls: nat): Totals
    requires done.Finished?
  {
    Totals(t.claimed + claimed, t.completed + done.completed, t.retried + done.retried, t.failed + done.failed,
           t.claimCalls + calls)
  }

  /** A settled round keeps the totals true to what was sent. */
  lemma TallyIsSent(t: Totals, gone: seq<Job>, sent: seq<C.Mutation>, more: seq<C.Mutation>, jobs: seq<Job>, done: C.Finished,
                    calls: nat)
    requires TotalsAreSent(t, gone, sent) && C.Tallies(more, jobs, done)
    ensures TotalsAreSent(Tally(t, |jobs|, done, calls), gone + jobs, sent + more)
  {
    C.TalliesAdd(sent, more, gone, jobs, C.Finished(t.completed, t.retried, t.failed), done);
  }

  /** How many of the jobs their handler deals with well. */
  function GoodOnes(jobs: seq<Job>, handle: Job -> Verdict): (r: nat)
    ensures r <= |jobs|
  {
    if jobs == [] then 0 else GoodOnes(jobs[..|jobs| - 1], handle) + (if handle(jobs[|jobs| - 1]).Good? then 1 else 0)
  }

  lemma {:induction false} GoodOnesSucceed(jobs: seq<Job>, handle: Job -> Verdict, outcomes: seq<C.Outcome>)
    requires outcomes == Handled(jobs, handle)
    ensures |C.Successes(outcomes)| == GoodOnes(jobs, handle)
    ensures |C.Failures(outcomes)| == |jobs| - GoodOnes(jobs, handle)
    decreases |jobs|
  {
    if jobs != [] {
      var front := jobs[..|jobs| - 1];
      assert outcomes[..|outcomes| - 1] == Handled(front, handle);
      GoodOnesSucceed(front, handle, outcomes[..|outcomes| - 1]);
    }
  }

  /** What a round without error adds to the totals: every job with a good verdict completed, every other failed or retried. */
  predicate CountedRound(before: Totals, after: Totals, size: nat, good: nat, onError: OnError) {
    && after.claimed == before.claimed + size
    && after.completed == before.completed + good
    && after.retried == before.retried + (if onError.FailJobs? then 0 else size - good)
    && after.failed == before.failed + (if onError.FailJobs? then size - good else 0)
  }

  class AsyncQueueFlowWorker {
    const config: Config
    const completion: C.WorkerCompletion
    var closing: bool
    var taskLive: bool                   // there is a loop task, and it is not done
    var running: bool
    var stopEvent: bool
    var phase: Phase
    var prefetched: seq<Job>
    var totals: Totals
    ghost var handed: seq<Job>
    ghost var gone: seq<Job>
    ghost var claims: nat
    ghost var claimsAtStop: nat

    /** Stopping stops claims. */
    ghost predicate StopHolds()
      reads this
    {
      stopEvent ==> !running && claims == claimsAtStop
    }

    /** What holds at the head of the loop. */
    ghost predicate Valid()
      reads this, completion
    {
      && handed == gone + prefetched
      && TotalsAreSent(totals, gone, completion.sent)
      && completion.onError == config.onError
      && totals.claimCalls == claims
      && StopHolds()
    }

    constructor (config: Config, completion: C.WorkerCompletion)
      requires |completion.sent| == 0 && completion.onError == config.onError
      ensures Valid() && this.config == config && this.completion == completion
      ensures !running && !taskLive && !closing && |prefetched| == 0 && |handed| == 0
    {
      this.config, this.completion := config, completion;
      closing, taskLive, running, stopEvent, phase := false, false, false, false, StoppedPhase;
      prefetched, totals := [], Totals(0, 0, 0, 0, 0);
      handed, gone, claims, claimsAtStop := [], [], 0, 0;
      NothingSent(completion.sent);
    }

    /** `_begin_run`: refused when the worker is closing or its task is still at work. */
    method BeginRun() returns (ok: bool)
      requires Valid()
      modifies `running, `stopEvent
      ensures ok == (!closing && !taskLive)
      ensures Valid() && (ok ==> running && !stopEvent) && (!ok ==> running == old(running) && stopEvent == old(stopEvent))
    {
      if closing || taskLive { return false; }
      stopEvent := false;
      running := true;
      return true;
    }

    /** `stop`: returns whether it cancels the loop task; `inside` when that task itself calls it. */
    method Stop(inside: bool) returns (cancels: bool)
      modifies `running, `stopEvent, `claimsAtStop
      ensures !running && stopEvent && claimsAtStop == (if old(stopEvent) then old(claimsAtStop) else claims)
      ensures cancels <==> taskLive && !inside && (phase.SubscribePhase? || phase.IdlePhase?)
    {
      if !stopEvent { claimsAtStop := claims; }
      running := false;
      stopEvent := true;
      cancels := taskLive && !inside && (phase.SubscribePhase? || phase.IdlePhase?);
    }

    /** Suspend in the current phase; the environment may call `stop` meanwhile. */
    method Suspend(stopIn: Option<Phase>)
      modifies `running, `stopEvent, `claimsAtStop
      ensures if stopIn == Some(phase)
              then !running && stopEvent && claimsAtStop == (if old(stopEvent) then old(claimsAtStop) else claims)
              else running == old(running) && stopEvent == old(stopEvent) && claimsAtStop == old(claimsAtStop)
    {
      if stopIn == Some(phase) { var _ := Stop(false); }
    }

    /** `_next_jobs`: the prefetched batch, or a claim. */
    method NextJobs(round: Round) returns (jobs: seq<Job>, calls: nat)
      requires StopHolds() && handed == gone + prefetched && (running || prefetched != [])
      modifies this
      ensures (old(stopEvent) ==> stopEvent) && (old(running) ==> running || stopEvent)
      ensures prefetched == [] && totals == old(totals) && gone == old(gone) && handed == gone + jobs && StopHolds()
      ensures taskLive == old(taskLive) && closing == old(closing)
      ensures old(prefetched) != [] ==> jobs == old(prefetched) && calls == 0 && claims == old(claims)
      ensures old(prefetched) == [] ==> jobs == round.claimed && calls == 1 && claims == old(claims) + 1
    {
      phase := ClaimPhase;
      if prefetched != [] {
        jobs, calls := prefetched, 0;
        prefetched := [];
        return;
      }
      claims := claims + 1;
      Suspend(round.stopIn);
      jobs, calls := round.claimed, 1;
      handed := handed + jobs;
    }

    /**
     `_finish_or_fuse`: the batch is settled by the fused command or by
     `_finish_batch`, every job mutated once and counted; or an error is raised.
     Also returns the fused claims.
     */
    method FinishOrFuse(outcomes: seq<C.Outcome>, round: Round) returns (done: C.Finished, fusedClaims: nat)
      requires prefetched == [] && handed == gone + C.JobsOf(outcomes) && StopHolds()
      modifies this, completion
      ensures (old(stopEvent) ==> stopEvent) && (old(running) ==> running || stopEvent)
      ensures totals == old(totals) && gone == old(gone) && StopHolds() && handed == gone + C.JobsOf(outcomes) + prefetched
      ensures taskLive == old(taskLive) && closing == old(closing)
      ensures |completion.sent| >= |old(completion.sent)| && completion.sent[..|old(completion.sent)|] == old(completion.sent)
      ensures done.Finished? ==> C.Tallies(completion.sent[|old(completion.sent)|..], C.JobsOf(outcomes), done)
      ensures done.Finished? ==>
                && done.completed == |C.Successes(outcomes)|
                && (if completion.onError.FailJobs? then done.retried == 0 && done.failed == |C.Failures(outcomes)|
                    else done.retried == |C.Failures(outcomes)| && done.failed == 0)
      ensures C.EndsAsItMust(done, old(completion.trouble), completion.trouble, completion.onError, C.Failures(outcomes))
      ensures claims == old(claims) + fusedClaims && fusedClaims <= 1
      ensures fusedClaims == 1 <==>
                && old(running) && !old(stopEvent) && config.fuse && !config.claimsValues && config.fuseSupported
                && C.Successes(outcomes) != [] && C.Failures(outcomes) == []
                && C.AllMatch(C.Successes(outcomes)[0].1, C.Successes(outcomes))
      ensures done.Broke? && completion.Accepting() ==> C.Failures(outcomes) != [] && completion.onError.RaiseErrors?
      ensures C.Failures(outcomes) != [] && completion.onError.RaiseErrors? ==> done.Broke?
      ensures old(stopEvent) ==> claims == old(claims) && prefetched == []
      ensures prefetched == (if fusedClaims == 1 && done.Finished? then round.next else [])
    {
      var mayFuse := running && !stopEvent && config.fuse && !config.claimsValues && config.fuseSupported;
      var fused;
      done, fused := completion.Settle(outcomes, mayFuse);
      if !fused {
        Suspend(round.stopIn);
        return done, 0;
      }
      FusedClaim(round, done.Finished?);
      return done, 1;
    }

    /** The claiming half of the fused command. */
    method FusedClaim(round: Round, answered: bool)
      requires prefetched == [] && StopHolds() && !stopEvent
      modifies this
      ensures totals == old(totals) && gone == old(gone) && taskLive == old(taskLive) && closing == old(closing)
      ensures StopHolds() && claims == old(claims) + 1 && (old(running) ==> running || stopEvent)
      ensures prefetched == (if answered then round.next else []) && handed == old(handed) + prefetched
    {
      phase := ClaimPhase;
      claims := claims + 1;
      Suspend(if round.stopIn == Some(FinishPhase) then Some(ClaimPhase) else None);
      if answered {
        prefetched := round.next;
        handed := handed + round.next;
      }
    }

    /** Adds a round that settled its jobs to the totals. */
    method TallyRound(jobs: seq<Job>, done: C.Finished, calls: nat, ghost before: seq<C.Mutation>)
      requires done.Finished? && handed == gone + jobs + prefetched && StopHolds() && completion.onError == config.onError
      requires totals.claimCalls + calls == claims && TotalsAreSent(totals, gone, before)
      requires before <= completion.sent && C.Tallies(completion.sent[|before|..], jobs, done)
      modifies `totals, `gone
      ensures Valid() && totals == Tally(old(totals), |jobs|, done, calls) && gone == old(gone) + jobs
    {
      assert completion.sent == before + completion.sent[|before|..];
      TallyIsSent(totals, gone, before, completion.sent[|before|..], jobs, done, calls);
      totals := Tally(totals, |jobs|, done, calls);
      gone := gone + jobs;
    }

    /** Finish a handled batch and add it to the totals. */
    method FinishRound(outcomes: seq<C.Outcome>, calls: nat, round: Round) returns (raised: bool)
      requires prefetched == [] && handed == gone + C.JobsOf(outcomes) && StopHolds() && totals.claimCalls + calls == claims
      requires TotalsAreSent(totals, gone, completion.sent) && completion.onError == config.onError
      modifies this, completion
      ensures (old(stopEvent) ==> stopEvent) && (old(running) ==> running || stopEvent)
      ensures !raised ==> Valid()
      ensures taskLive == old(taskLive) && closing == old(closing)
      ensures old(stopEvent) && !raised ==> claims == old(claims) && stopEvent && prefetched == []
      ensures raised && completion.Accepting() ==> config.onError.RaiseErrors?
      ensures !raised ==> CountedRound(old(totals), totals, |outcomes|, |C.Successes(outcomes)|, config.onError)
      ensures !raised ==> gone == old(gone) + C.JobsOf(outcomes) && completion.trouble == old(completion.trouble)
      ensures raised ==> completion.trouble != old(completion.trouble) || (config.onError.RaiseErrors? && C.Failures(outcomes) != [])
    {
      C.EveryOutcomeIsOneOrTheOther(outcomes);
      ghost var before := completion.sent;
      var done, fusedClaims := FinishOrFuse(outcomes, round);
      if done.Broke? { return true; }
      TallyRound(C.JobsOf(outcomes), done, calls + fusedClaims, before);
      return false;
    }

    /** The part of a pass that has jobs in hand: handle, then finish. */
    method SettleRound(outcomes: seq<C.Outcome>, calls: nat, round: Round) returns (raised: bool)
      requires prefetched == [] && handed == gone + C.JobsOf(outcomes) && StopHolds() && totals.claimCalls + calls == claims
      requires TotalsAreSent(totals, gone, completion.sent) && completion.onError == config.onError
      modifies this, completion
      ensures (old(stopEvent) ==> stopEvent) && (old(running) ==> running || stopEvent)
      ensures !raised ==> Valid()
      ensures taskLive == old(taskLive) && closing == old(closing)
      ensures old(stopEvent) && !raised ==> claims == old(claims) && stopEvent && prefetched == []
      ensures raised && completion.Accepting() ==> config.onError.RaiseErrors?
      ensures !raised ==> CountedRound(old(totals), totals, |outcomes|, |C.Successes(outcomes)|, config.onError)
      ensures !raised ==> gone == old(gone) + C.JobsOf(outcomes) && completion.trouble == old(completion.trouble)
      ensures raised ==> completion.trouble != old(completion.trouble) || (config.onError.RaiseErrors? && C.Failures(outcomes) != [])
    {
      phase := HandlePhase;
      Suspend(round.stopIn);
      phase := FinishPhase;
      raised := FinishRound(outcomes, calls, round);
    }

    /** One pass of the loop body. */
    method RunOnce(round: Round) returns (raised: bool)
      requires Valid() && (running || prefetched != [])
      modifies this, completion
      ensures (old(stopEvent) ==> stopEvent) && (old(running) ==> running || stopEvent)
      ensures !raised ==> Valid()
      ensures taskLive == old(taskLive) && closing == old(closing)
      ensures old(stopEvent) && !raised ==> claims == old(claims) && stopEvent && prefetched == []
      ensures raised && completion.Accepting() ==> config.onError.RaiseErrors?
      ensures var jobs := if old(prefetched) != [] then old(prefetched) else round.claimed;
              && (!raised ==>
                    && CountedRound(old(totals), totals, |jobs|, GoodOnes(jobs, round.handle), config.onError)
                    && gone == old(gone) + jobs && completion.trouble == old(completion.trouble))
              && (raised ==> completion.trouble != old(completion.trouble)
                             || (config.onError.RaiseErrors? && GoodOnes(jobs, round.handle) < |jobs|))
    {
      var jobs, calls := NextJobs(round);
      if jobs != [] {
        GoodOnesSucceed(jobs, round.handle, Handled(jobs, round.handle));
        raised := SettleRound(Handled(jobs, round.handle), calls, round);
        return;
      }
      totals := totals.(claimCalls := totals.claimCalls + calls);
      phase := IdlePhase;
      Suspend(round.stopIn);
      return false;
    }

    /**
     `_run_loop` over a script of rounds; a script that runs out is followed by
     `stop`.  Leaving the loop normally leaves nothing prefetched, every job
     handed out mutated exactly once, and the totals equal to the mutations sent.
     */
    method RunLoop(script: seq<Round>) returns (raised: bool)
      requires Valid() && running && !stopEvent
      modifies this, completion
      ensures !running && !taskLive && phase == StoppedPhase
      ensures !raised ==> Valid() && prefetched == [] && handed == gone && |handed| == totals.claimed
      ensures !raised ==> multiset(handed) == C.SettledJobs(completion.sent)
      ensures !raised ==> stopEvent && claims == claimsAtStop && completion.trouble == old(completion.trouble)
      ensures raised && completion.Accepting() ==> config.onError.RaiseErrors?
    {
      var i := 0;
      raised := false;
      taskLive := true;
      while running || prefetched != []
        invariant 0 <= i <= |script| && Valid() && (running || stopEvent) && !raised && completion.trouble == old(completion.trouble)
        decreases |script| - i, running, |prefetched|
      {
        if i == |script| {
          if running {
            var _ := Stop(false);
            continue;
          }
          raised := RunOnce(Round([], (_: Job) => Good(C.PYTHON_NONE), [], None));
        } else {
          raised := RunOnce(script[i]);
          i := i + 1;
        }
        if raised { break; }
      }
      running := false;
      phase := StoppedPhase;
      taskLive := false;
    }
  }
}
