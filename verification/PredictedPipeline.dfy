/**
 The predicted pipeline of the latency benchmark: all commands of a wave of
 flows are sent in one batch, with lease and fencing tokens predicted instead of
 read from the replies.  It is shown to refine the sequential chain, which reads
 every token from the reply before.

 The server is the one the prediction assumes: starting a flow claims it with
 fencing token 1, continuing a step issues the next fencing token, and a lease
 token names the worker, the time of the command and the fencing token.
 */
module PredictedPipeline {
  import opened Common

  type Bytes = seq<nat>

  /** The parts of a flow id and of a lease token; `TextIdentifiesFlow` and `TextIdentifiesLease` speak of their text. */
  datatype Id = FlowId(runId: string, index: nat)
  datatype Lease = LeaseToken(worker: string, nowMs: nat, fencing: nat)
  datatype StepState = StepState(step: int)

  datatype WorkflowSpec = WorkflowSpec(runId: string, index: nat, worker: string, partition: Option<string>, steps: int)
  {
    function Flow(): Id { FlowId(runId, index) }
  }

  // ------------------------------------------------ the server

  datatype Flow = Flow(worker: string, partition: Option<string>, state: StepState, fencing: nat, lease: Lease,
                       completed: bool, result: Option<Bytes>)

  datatype Job = Job(id: Id, lease: Lease, fencing: nat, partition: Option<string>)

  datatype Command =
    | StartAndClaim(id: Id, initialState: StepState, worker: string, now: nat, partition: Option<string>, payload: Option<Bytes>)
    | StepContinue(id: Id, lease: Lease, fromState: StepState, toState: StepState, fencing: nat, partition: Option<string>,
                   now: nat)
    | Complete(id: Id, lease: Lease, fencing: nat, now: nat, partition: Option<string>, result: Option<Bytes>)

  datatype Reply = Accepted(job: Job) | Refused

  type Flows = map<Id, Flow>

  function Lookup(db: Flows, id: Id): Option<Flow> { if id in db then Some(db[id]) else None }

  predicate Holds(flow: Option<Flow>, lease: Lease, fencing: nat, partition: Option<string>) {
    && flow.Some? && !flow.value.completed
    && flow.value.lease == lease && flow.value.fencing == fencing && flow.value.partition == partition
  }

  /** What one command does to the flow it names. */
  function FlowStep(flow: Option<Flow>, command: Command): (Option<Flow>, Reply) {
    match command
    case StartAndClaim(id, state, worker, now, partition, _) =>
      if flow.Some? then (flow, Refused)
      else
        var lease := LeaseToken(worker, now, 1);
        (Some(Flow(worker, partition, state, 1, lease, false, None)), Accepted(Job(id, lease, 1, partition)))
    case StepContinue(id, lease, fromState, toState, fencing, partition, now) =>
      if !Holds(flow, lease, fencing, partition) || flow.value.state != fromState then (flow, Refused)
      else
        var next := fencing + 1;
        var token := LeaseToken(flow.value.worker, now, next);
        (Some(flow.value.(state := toState, fencing := next, lease := token)), Accepted(Job(id, token, next, partition)))
    case Complete(id, lease, fencing, now, partition, result) =>
      if !Holds(flow, lease, fencing, partition) then (flow, Refused)
      else (Some(flow.value.(completed := true, result := result)), Accepted(Job(id, lease, fencing, partition)))
  }

  function Applied(db: Flows, command: Command): Flows {
    var flow := FlowStep(Lookup(db, command.id), command).0;
    if flow.Some? then db[command.id := flow.value] else db
  }

  function Replied(db: Flows, command: Command): Reply { FlowStep(Lookup(db, command.id), command).1 }

  /** The server after a batch, and its replies in order. */
  function After(db: Flows, commands: seq<Command>): Flows {
    if commands == [] then db else Applied(After(db, commands[..|commands| - 1]), commands[|commands| - 1])
  }

  function Replies(db: Flows, commands: seq<Command>): (r: seq<Reply>)
    ensures |r| == |commands|
  {
    if commands == [] then []
    else Replies(db, commands[..|commands| - 1]) + [Replied(After(db, commands[..|commands| - 1]), commands[|commands| - 1])]
  }

  predicate AllAccepted(replies: seq<Reply>) {
    forall i | 0 <= i < |replies| :: replies[i].Accepted?
  }

  lemma LastOfConcat(first: seq<Command>, second: seq<Command>)
    requires second != []
    ensures var all := first + second;
            all != [] && all[..|all| - 1] == first + second[..|second| - 1] && all[|all| - 1] == second[|second| - 1]
  {
  }

  lemma {:induction false} AfterConcat(db: Flows, first: seq<Command>, second: seq<Command>)
    ensures After(db, first + second) == After(After(db, first), second)
    decreases |second|
  {
    if second == [] {
      assert first + second == first;
    } else {
      LastOfConcat(first, second);
      AfterConcat(db, first, second[..|second| - 1]);
    }
  }

  lemma {:induction false} RepliesConcat(db: Flows, first: seq<Command>, second: seq<Command>)
    ensures Replies(db, first + second) == Replies(db, first) + Replies(After(db, first), second)
    decreases |second|
  {
    if second == [] {
      assert first + second == first;
    } else {
      LastOfConcat(first, second);
      AfterConcat(db, first, second[..|second| - 1]);
      RepliesConcat(db, first, second[..|second| - 1]);
    }
  }

  predicate DistinctIds(commands: seq<Command>) {
    forall i, j | 0 <= i < j < |commands| :: commands[i].id != commands[j].id
  }

  lemma AppliedTo(db: Flows, command: Command, id: Id)
    ensures Lookup(Applied(db, command), id)
         == if id == command.id then FlowStep(Lookup(db, id), command).0 else Lookup(db, id)
  {
  }

  lemma {:induction false} OthersUntouched(db: Flows, commands: seq<Command>, id: Id)
    requires forall i | 0 <= i < |commands| :: commands[i].id != id
    ensures Lookup(After(db, commands), id) == Lookup(db, id)
  {
    if commands != [] {
      var front := commands[..|commands| - 1];
      OthersUntouched(db, front, id);
      AppliedTo(After(db, front), commands[|commands| - 1], id);
    }
  }

  /** Commands that name different flows do not see each other. */
  lemma {:induction false} WaveIsIndependent(db: Flows, commands: seq<Command>, i: nat)
    requires DistinctIds(commands) && i < |commands|
    ensures Lookup(After(db, commands), commands[i].id) == FlowStep(Lookup(db, commands[i].id), commands[i]).0
    ensures Replies(db, commands)[i] == FlowStep(Lookup(db, commands[i].id), commands[i]).1
    decreases |commands|
  {
    var n := |commands| - 1;
    var front := commands[..n];
    AppliedTo(After(db, front), commands[n], commands[i].id);
    if i == n {
      OthersUntouched(db, front, commands[n].id);
    } else {
      WaveIsIndependent(db, front, i);
    }
  }

  // ------------------------------------------------ the commands of a wave

  function StartOf(spec: WorkflowSpec, now: nat, payload: Option<Bytes>): Command {
    StartAndClaim(spec.Flow(), StepState(1), spec.worker, now, spec.partition, payload)
  }

  function ContinueOf(job: Job, step: int, now: nat): Command {
    StepContinue(job.id, job.lease, StepState(step), StepState(step + 1), job.fencing, job.partition, now)
  }

  function CompleteOf(job: Job, now: nat, result: Option<Bytes>): Command {
    Complete(job.id, job.lease, job.fencing, now, job.partition, result)
  }

  function Starts(specs: seq<WorkflowSpec>, now: nat, payload: Option<Bytes>): (r: seq<Command>)
    ensures |r| == |specs| && forall i | 0 <= i < |r| :: r[i] == StartOf(specs[i], now, payload)
  {
    seq(|specs|, i requires 0 <= i < |specs| => StartOf(specs[i], now, payload))
  }

  function Continues(jobs: seq<Job>, step: int, now: nat): (r: seq<Command>)
    ensures |r| == |jobs| && forall i | 0 <= i < |r| :: r[i] == ContinueOf(jobs[i], step, now)
  {
    seq(|jobs|, i requires 0 <= i < |jobs| => ContinueOf(jobs[i], step, now))
  }

  function Completes(jobs: seq<Job>, now: nat, result: Option<Bytes>): (r: seq<Command>)
    ensures |r| == |jobs| && forall i | 0 <= i < |r| :: r[i] == CompleteOf(jobs[i], now, result)
  {
    seq(|jobs|, i requires 0 <= i < |jobs| => CompleteOf(jobs[i], now, result))
  }

  function PredictedStepJob(spec: WorkflowSpec, start: nat, step: nat): Job {
    var now := if step <= 1 then start else start + step - 1;
    Job(spec.Flow(), LeaseToken(spec.worker, now, step), step, spec.partition)
  }

  function PredictedTerminalJob(spec: WorkflowSpec, start: nat, steps: int): Job {
    var fencing := if steps >= 1 then steps else 1;
    var now := if steps <= 1 then start else start + steps - 1;
    Job(spec.Flow(), LeaseToken(spec.worker, now, fencing), fencing, spec.partition)
  }

  function PredictedJobs(specs: seq<WorkflowSpec>, start: nat, step: nat): (r: seq<Job>)
    ensures |r| == |specs|
  {
    seq(|specs|, i requires 0 <= i < |specs| => PredictedStepJob(specs[i], start, step))
  }

  function TerminalJobs(specs: seq<WorkflowSpec>, start: nat, steps: int): (r: seq<Job>)
    ensures |r| == |specs|
  {
    seq(|specs|, i requires 0 <= i < |specs| => PredictedTerminalJob(specs[i], start, steps))
  }

  /** The predicted commands that come before the wave that leaves `step`. */
  function PredictedUpTo(specs: seq<WorkflowSpec>, start: nat, step: int, payload: Option<Bytes>): seq<Command>
    decreases step
  {
    if step <= 1 then Starts(specs, start, payload)
    else PredictedUpTo(specs, start, step - 1, payload)
         + Continues(PredictedJobs(specs, start, step - 1), step - 1, start + (step - 1))
  }

  /** The time the final commands carry, `start + steps`; it is not looked at by the server. */
  function FinalTime(start: nat, steps: int): nat { if start + steps >= 0 then start + steps else 0 }

  function PredictedCommands(specs: seq<WorkflowSpec>, start: nat, steps: int, payload: Option<Bytes>, result: Option<Bytes>)
    : seq<Command>
  {
    PredictedUpTo(specs, start, steps, payload) + Completes(TerminalJobs(specs, start, steps), FinalTime(start, steps), result)
  }

  // ------------------------------------------------ what stands where in the batch

  lemma LastWave(n: nat, waves: nat)
    requires waves > 0
    ensures n * waves == n * (waves - 1) + n
  {
  }

  lemma {:induction false} OneMoreWave(n: nat, k: nat, i: nat, waves: nat)
    requires i < n && k < waves
    ensures n * k + i < n * waves && n * waves == n * (waves - 1) + n
    decreases waves
  {
    LastWave(n, waves);
    if k < waves - 1 { OneMoreWave(n, k, i, waves - 1); }
  }

  lemma {:induction false} BatchSize(specs: seq<WorkflowSpec>, start: nat, step: int, payload: Option<Bytes>)
    ensures |PredictedUpTo(specs, start, step, payload)| == |specs| * Max1(step)
    decreases step
  {
    if step > 1 {
      BatchSize(specs, start, step - 1, payload);
      assert |specs| * Max1(step) == |specs| * Max1(step - 1) + |specs|;
    }
  }

  /** The wave that leaves step `k` stands behind the `k` waves before it. */
  lemma {:induction false} ContinueStandsAt(specs: seq<WorkflowSpec>, start: nat, step: int, payload: Option<Bytes>, k: nat, i: nat)
    requires 1 <= k < step && i < |specs|
    ensures |specs| * k + i < |PredictedUpTo(specs, start, step, payload)|
    ensures PredictedUpTo(specs, start, step, payload)[|specs| * k + i]
         == StepContinue(FlowId(specs[i].runId, specs[i].index), LeaseToken(specs[i].worker, start + k - 1, k),
                         StepState(k), StepState(k + 1), k, specs[i].partition, start + k)
    decreases step
  {
    BatchSize(specs, start, step, payload);
    BatchSize(specs, start, step - 1, payload);
    OneMoreWave(|specs|, k, i, Max1(step));
    if k < step - 1 { ContinueStandsAt(specs, start, step - 1, payload, k, i); }
  }

  lemma {:induction false} StartStandsAt(specs: seq<WorkflowSpec>, start: nat, step: int, payload: Option<Bytes>, i: nat)
    requires i < |specs|
    ensures i < |PredictedUpTo(specs, start, step, payload)|
    ensures PredictedUpTo(specs, start, step, payload)[i]
         == StartAndClaim(FlowId(specs[i].runId, specs[i].index), StepState(1), specs[i].worker, start, specs[i].partition, payload)
    decreases step
  {
    if step > 1 { StartStandsAt(specs, start, step - 1, payload, i); }
  }

  /**
   The batch, command by command: the starts with the payload, the waves in the
   order of the steps with their predicted tokens, and the completions with the
   result.  Within each wave the flows come in the order of their specs.
   */
  lemma BatchInOrder(specs: seq<WorkflowSpec>, start: nat, steps: int, payload: Option<Bytes>, result: Option<Bytes>, i: nat)
    requires i < |specs|
    ensures var commands, n, last := PredictedCommands(specs, start, steps, payload, result), |specs|, Max1(steps);
            && |commands| == n * last + n
            && commands[i] == StartAndClaim(FlowId(specs[i].runId, specs[i].index), StepState(1), specs[i].worker, start,
                                            specs[i].partition, payload)
            && (forall k | 1 <= k < steps ::
                  && n * k + i < n * last
                  && commands[n * k + i] == StepContinue(FlowId(specs[i].runId, specs[i].index), LeaseToken(specs[i].worker, start + k - 1, k),
                                                         StepState(k), StepState(k + 1), k, specs[i].partition, start + k))
            && commands[n * last + i] == Complete(FlowId(specs[i].runId, specs[i].index),
                                                  LeaseToken(specs[i].worker, start + last - 1, last), last,
                                                  FinalTime(start, steps), specs[i].partition, result)
  {
    var before, n := PredictedUpTo(specs, start, steps, payload), |specs|;
    BatchSize(specs, start, steps, payload);
    StartStandsAt(specs, start, steps, payload, i);
    forall k | 1 <= k < steps
      ensures n * k + i < |before|
              && before[n * k + i] == StepContinue(FlowId(specs[i].runId, specs[i].index), LeaseToken(specs[i].worker, start + k - 1, k),
                                                   StepState(k), StepState(k + 1), k, specs[i].partition, start + k)
    {
      ContinueStandsAt(specs, start, steps, payload, k, i);
    }
  }

  // ------------------------------------------------ the sequential chain

  function JobsOf(replies: seq<Reply>): (r: seq<Job>)
    requires AllAccepted(replies)
    ensures |r| == |replies|
  {
    seq(|replies|, i requires 0 <= i < |replies| => replies[i].job)
  }

  /** The jobs a wave's replies hold; none when a reply is a refusal, which raises. */
  function WaveJobs(db: Flows, commands: seq<Command>): Option<seq<Job>> {
    if AllAccepted(Replies(db, commands)) then Some(JobsOf(Replies(db, commands))) else None
  }

  /** How far the chain has come: the server, and the jobs read last unless a wave was refused. */
  datatype Progress = Progress(flows: Flows, jobs: Option<seq<Job>>)

  function Sent(db: Flows, commands: seq<Command>): Progress { Progress(After(db, commands), WaveJobs(db, commands)) }

  function Continued(p: Progress, step: int, now: nat): Progress {
    if p.jobs.None? then p else Sent(p.flows, Continues(p.jobs.value, step, now))
  }

  /** The chain up to `step`; `clock(k)` is the time read for the wave that leaves step `k`. */
  function ChainUpTo(db: Flows, specs: seq<WorkflowSpec>, clock: int -> nat, step: int, payload: Option<Bytes>): Progress {
    Chained(Sent(db, Starts(specs, clock(0), payload)), Continuer(clock), step)
  }

  function Continuer(clock: int -> nat): (Progress, int) -> Progress {
    (p: Progress, k: int) => Continued(p, k, clock(k))
  }

  /** The first wave, then one more for every further step. */
  function Chained<P>(first: P, next: (P, int) -> P, step: int): P
    decreases step
  {
    if step <= 1 then first else next(Chained(first, next, step - 1), step - 1)
  }

  lemma {:induction false} ChainedAt<P>(first: P, next: (P, int) -> P, at: int -> P, step: int)
    requires first == at(1) && forall k | k >= 1 :: next(at(k), k) == at(k + 1)
    ensures Chained(first, next, step) == at(Max1(step))
    decreases step
  {
    if step > 1 {
      ChainedAt(first, next, at, step - 1);
      assert Max1(step) == Max1(step - 1) + 1;
    }
  }

  lemma {:induction false} ChainedStays<P>(first: P, next: (P, int) -> P, step: int, steps: int)
    requires 1 <= step <= steps && forall k | k >= step :: next(Chained(first, next, step), k) == Chained(first, next, step)
    ensures Chained(first, next, steps) == Chained(first, next, step)
    decreases steps
  {
    if steps > step { ChainedStays(first, next, step, steps - 1); }
  }

  function Completed(p: Progress, now: nat, result: Option<Bytes>): Progress {
    if p.jobs.None? then p else Sent(p.flows, Completes(p.jobs.value, now, result))
  }

  function Chain(db: Flows, specs: seq<WorkflowSpec>, clock: int -> nat, steps: int, payload: Option<Bytes>, result: Option<Bytes>)
    : Progress
  {
    Completed(ChainUpTo(db, specs, clock, steps, payload), clock(steps), result)
  }

  // ------------------------------------------------ what the waves do

  predicate DistinctFlows(specs: seq<WorkflowSpec>) {
    forall i, j | 0 <= i < j < |specs| :: specs[i].Flow() != specs[j].Flow()
  }

  predicate NewFlows(db: Flows, specs: seq<WorkflowSpec>) {
    forall i | 0 <= i < |specs| :: specs[i].Flow() !in db
  }

  predicate IsOneOf(specs: seq<WorkflowSpec>, id: Id) {
    exists i :: 0 <= i < |specs| && specs[i].Flow() == id
  }

  /** A flow claimed at `step` by a command of time `now`. */
  function AtStep(spec: WorkflowSpec, step: nat, now: nat): Flow {
    Flow(spec.worker, spec.partition, StepState(step), step, LeaseToken(spec.worker, now, step), false, None)
  }

  function DoneAt(spec: WorkflowSpec, step: nat, now: nat, result: Option<Bytes>): Flow {
    AtStep(spec, step, now).(completed := true, result := result)
  }

  function JobAt(spec: WorkflowSpec, step: nat, now: nat): Job {
    Job(spec.Flow(), LeaseToken(spec.worker, now, step), step, spec.partition)
  }

  function JobsAt(specs: seq<WorkflowSpec>, step: nat, now: nat): (r: seq<Job>)
    ensures |r| == |specs| && forall i | 0 <= i < |r| :: r[i] == JobAt(specs[i], step, now)
  {
    seq(|specs|, i requires 0 <= i < |specs| => JobAt(specs[i], step, now))
  }

  /** All flows of the wave are at `step`, everything else is as in `db`. */
  ghost predicate WaveAt(db: Flows, after: Flows, specs: seq<WorkflowSpec>, step: nat, now: nat) {
    && (forall i | 0 <= i < |specs| :: Lookup(after, specs[i].Flow()) == Some(AtStep(specs[i], step, now)))
    && (forall id | !IsOneOf(specs, id) :: Lookup(after, id) == Lookup(db, id))
  }

  ghost predicate WaveDone(db: Flows, after: Flows, specs: seq<WorkflowSpec>, step: nat, now: nat, result: Option<Bytes>) {
    && (forall i | 0 <= i < |specs| :: Lookup(after, specs[i].Flow()) == Some(DoneAt(specs[i], step, now, result)))
    && (forall id | !IsOneOf(specs, id) :: Lookup(after, id) == Lookup(db, id))
  }

  predicate ForSpecs(commands: seq<Command>, specs: seq<WorkflowSpec>) {
    |commands| == |specs| && forall i | 0 <= i < |specs| :: commands[i].id == specs[i].Flow()
  }

  lemma OthersKept(db: Flows, commands: seq<Command>, specs: seq<WorkflowSpec>, id: Id)
    requires ForSpecs(commands, specs) && !IsOneOf(specs, id)
    ensures Lookup(After(db, commands), id) == Lookup(db, id)
  {
    forall i | 0 <= i < |commands| ensures commands[i].id != id {
      assert specs[i].Flow() == commands[i].id;
    }
    OthersUntouched(db, commands, id);
  }

  lemma OneOfWave(db: Flows, commands: seq<Command>, specs: seq<WorkflowSpec>, i: nat)
    requires ForSpecs(commands, specs) && DistinctFlows(specs) && i < |specs|
    ensures Lookup(After(db, commands), specs[i].Flow()) == FlowStep(Lookup(db, specs[i].Flow()), commands[i]).0
    ensures Replies(db, commands)[i] == FlowStep(Lookup(db, specs[i].Flow()), commands[i]).1
  {
    assert DistinctIds(commands) by {
      forall j, k | 0 <= j < k < |commands| ensures commands[j].id != commands[k].id {
        assert commands[j].id == specs[j].Flow() && commands[k].id == specs[k].Flow();
      }
    }
    WaveIsIndependent(db, commands, i);
  }

  /** A wave's replies are the jobs we expect when each of them is. */
  lemma JobsRead(db: Flows, commands: seq<Command>, jobs: seq<Job>)
    requires |jobs| == |commands| && forall i | 0 <= i < |jobs| :: Replies(db, commands)[i] == Accepted(jobs[i])
    ensures WaveJobs(db, commands) == Some(jobs) && AllAccepted(Replies(db, commands))
  {
    assert JobsOf(Replies(db, commands)) == jobs;
  }

  lemma StartStep(spec: WorkflowSpec, now: nat, payload: Option<Bytes>)
    ensures FlowStep(None, StartOf(spec, now, payload)) == (Some(AtStep(spec, 1, now)), Accepted(JobAt(spec, 1, now)))
  {
  }

  lemma ContinueStep(spec: WorkflowSpec, step: nat, claimed: nat, now: nat)
    ensures FlowStep(Some(AtStep(spec, step, claimed)), ContinueOf(JobAt(spec, step, claimed), step, now))
         == (Some(AtStep(spec, step + 1, now)), Accepted(JobAt(spec, step + 1, now)))
  {
  }

  lemma CompleteStep(spec: WorkflowSpec, step: nat, claimed: nat, now: nat, result: Option<Bytes>)
    ensures FlowStep(Some(AtStep(spec, step, claimed)), CompleteOf(JobAt(spec, step, claimed), now, result))
         == (Some(DoneAt(spec, step, claimed, result)), Accepted(JobAt(spec, step, claimed)))
  {
  }

  lemma StartsWork(db: Flows, specs: seq<WorkflowSpec>, now: nat, payload: Option<Bytes>)
    requires DistinctFlows(specs) && NewFlows(db, specs)
    ensures var commands := Starts(specs, now, payload);
            && WaveAt(db, After(db, commands), specs, 1, now)
            && WaveJobs(db, commands) == Some(JobsAt(specs, 1, now)) && AllAccepted(Replies(db, commands))
  {
    var commands, jobs := Starts(specs, now, payload), JobsAt(specs, 1, now);
    forall i | 0 <= i < |specs|
      ensures Replies(db, commands)[i] == Accepted(jobs[i])
              && Lookup(After(db, commands), specs[i].Flow()) == Some(AtStep(specs[i], 1, now))
    {
      OneOfWave(db, commands, specs, i);
      StartStep(specs[i], now, payload);
    }
    JobsRead(db, commands, jobs);
    forall id | !IsOneOf(specs, id) ensures Lookup(After(db, commands), id) == Lookup(db, id) {
      OthersKept(db, commands, specs, id);
    }
  }

  lemma ContinuesWork(db: Flows, before: Flows, specs: seq<WorkflowSpec>, step: nat, claimed: nat, now: nat)
    requires DistinctFlows(specs) && WaveAt(db, before, specs, step, claimed)
    ensures var commands := Continues(JobsAt(specs, step, claimed), step, now);
            && WaveAt(db, After(before, commands), specs, step + 1, now)
            && WaveJobs(before, commands) == Some(JobsAt(specs, step + 1, now)) && AllAccepted(Replies(before, commands))
  {
    var commands, jobs := Continues(JobsAt(specs, step, claimed), step, now), JobsAt(specs, step + 1, now);
    forall i | 0 <= i < |specs|
      ensures Replies(before, commands)[i] == Accepted(jobs[i])
              && Lookup(After(before, commands), specs[i].Flow()) == Some(AtStep(specs[i], step + 1, now))
    {
      OneOfWave(before, commands, specs, i);
      ContinueStep(specs[i], step, claimed, now);
    }
    JobsRead(before, commands, jobs);
    forall id | !IsOneOf(specs, id) ensures Lookup(After(before, commands), id) == Lookup(db, id) {
      OthersKept(before, commands, specs, id);
    }
  }

  lemma CompletesWork(db: Flows, before: Flows, specs: seq<WorkflowSpec>, step: nat, claimed: nat, now: nat, result: Option<Bytes>)
    requires DistinctFlows(specs) && WaveAt(db, before, specs, step, claimed)
    ensures var commands := Completes(JobsAt(specs, step, claimed), now, result);
            && WaveDone(db, After(before, commands), specs, step, claimed, result)
            && WaveJobs(before, commands).Some? && AllAccepted(Replies(before, commands))
  {
    var commands, jobs := Completes(JobsAt(specs, step, claimed), now, result), JobsAt(specs, step, claimed);
    forall i | 0 <= i < |specs|
      ensures Replies(before, commands)[i] == Accepted(jobs[i])
              && Lookup(After(before, commands), specs[i].Flow()) == Some(DoneAt(specs[i], step, claimed, result))
    {
      OneOfWave(before, commands, specs, i);
      CompleteStep(specs[i], step, claimed, now, result);
    }
    JobsRead(before, commands, jobs);
    forall id | !IsOneOf(specs, id) ensures Lookup(After(before, commands), id) == Lookup(db, id) {
      OthersKept(before, commands, specs, id);
    }
  }

  /** The server `db` with the flows of the wave claimed at `step`, and with them completed. */
  function Claimed(db: Flows, specs: seq<WorkflowSpec>, step: nat, now: nat): Flows {
    if specs == [] then db
    else
      var n := |specs| - 1;
      Claimed(db, specs[..n], step, now)[specs[n].Flow() := AtStep(specs[n], step, now)]
  }

  function Finished(db: Flows, specs: seq<WorkflowSpec>, step: nat, now: nat, result: Option<Bytes>): Flows {
    if specs == [] then db
    else
      var n := |specs| - 1;
      Finished(db, specs[..n], step, now, result)[specs[n].Flow() := DoneAt(specs[n], step, now, result)]
  }

  lemma FrontOfWave(specs: seq<WorkflowSpec>, id: Id)
    requires specs != [] && !IsOneOf(specs, id)
    ensures !IsOneOf(specs[..|specs| - 1], id) && specs[|specs| - 1].Flow() != id
  {
    var front := specs[..|specs| - 1];
    forall i | 0 <= i < |front| ensures front[i].Flow() != id {
      assert specs[i].Flow() == front[i].Flow();
    }
  }

  lemma {:induction false} ClaimedIsWave(db: Flows, specs: seq<WorkflowSpec>, step: nat, now: nat)
    requires DistinctFlows(specs)
    ensures WaveAt(db, Claimed(db, specs, step, now), specs, step, now)
  {
    if specs != [] {
      var n := |specs| - 1;
      ClaimedIsWave(db, specs[..n], step, now);
      forall i | 0 <= i < |specs| ensures Lookup(Claimed(db, specs, step, now), specs[i].Flow()) == Some(AtStep(specs[i], step, now)) {
        if i < n { assert specs[..n][i] == specs[i] && specs[i].Flow() != specs[n].Flow(); }
      }
      forall id | !IsOneOf(specs, id) ensures Lookup(Claimed(db, specs, step, now), id) == Lookup(db, id) {
        FrontOfWave(specs, id);
      }
    }
  }

  lemma {:induction false} FinishedIsWave(db: Flows, specs: seq<WorkflowSpec>, step: nat, now: nat, result: Option<Bytes>)
    requires DistinctFlows(specs)
    ensures WaveDone(db, Finished(db, specs, step, now, result), specs, step, now, result)
  {
    if specs != [] {
      var n := |specs| - 1;
      FinishedIsWave(db, specs[..n], step, now, result);
      forall i | 0 <= i < |specs| ensures Lookup(Finished(db, specs, step, now, result), specs[i].Flow()) == Some(DoneAt(specs[i], step, now, result)) {
        if i < n { assert specs[..n][i] == specs[i] && specs[i].Flow() != specs[n].Flow(); }
      }
      forall id | !IsOneOf(specs, id) ensures Lookup(Finished(db, specs, step, now, result), id) == Lookup(db, id) {
        FrontOfWave(specs, id);
      }
    }
  }

  lemma SameFlows(a: Flows, b: Flows)
    requires forall id :: Lookup(a, id) == Lookup(b, id)
    ensures a == b
  {
    forall id ensures id in a <==> id in b {
      assert Lookup(a, id) == Lookup(b, id);
    }
    forall id | id in a ensures a[id] == b[id] {
      assert Lookup(a, id) == Lookup(b, id);
    }
  }

  lemma WaveIsClaimed(db: Flows, after: Flows, specs: seq<WorkflowSpec>, step: nat, now: nat)
    requires DistinctFlows(specs) && WaveAt(db, after, specs, step, now)
    ensures after == Claimed(db, specs, step, now)
  {
    ClaimedIsWave(db, specs, step, now);
    forall id ensures Lookup(after, id) == Lookup(Claimed(db, specs, step, now), id) {
      if IsOneOf(specs, id) { var i :| 0 <= i < |specs| && specs[i].Flow() == id; }
    }
    SameFlows(after, Claimed(db, specs, step, now));
  }

  lemma WaveIsFinished(db: Flows, after: Flows, specs: seq<WorkflowSpec>, step: nat, now: nat, result: Option<Bytes>)
    requires DistinctFlows(specs) && WaveDone(db, after, specs, step, now, result)
    ensures after == Finished(db, specs, step, now, result)
  {
    FinishedIsWave(db, specs, step, now, result);
    forall id ensures Lookup(after, id) == Lookup(Finished(db, specs, step, now, result), id) {
      if IsOneOf(specs, id) { var i :| 0 <= i < |specs| && specs[i].Flow() == id; }
    }
    SameFlows(after, Finished(db, specs, step, now, result));
  }

  lemma StartsClaim(db: Flows, specs: seq<WorkflowSpec>, now: nat, payload: Option<Bytes>)
    requires DistinctFlows(specs) && NewFlows(db, specs)
    ensures var commands := Starts(specs, now, payload);
            && After(db, commands) == Claimed(db, specs, 1, now)
            && WaveJobs(db, commands) == Some(JobsAt(specs, 1, now)) && AllAccepted(Replies(db, commands))
  {
    StartsWork(db, specs, now, payload);
    WaveIsClaimed(db, After(db, Starts(specs, now, payload)), specs, 1, now);
  }

  lemma ContinuesClaim(db: Flows, specs: seq<WorkflowSpec>, step: nat, claimed: nat, now: nat)
    requires DistinctFlows(specs)
    ensures var before, commands := Claimed(db, specs, step, claimed), Continues(JobsAt(specs, step, claimed), step, now);
            && After(before, commands) == Claimed(db, specs, step + 1, now)
            && WaveJobs(before, commands) == Some(JobsAt(specs, step + 1, now)) && AllAccepted(Replies(before, commands))
  {
    var before, commands := Claimed(db, specs, step, claimed), Continues(JobsAt(specs, step, claimed), step, now);
    ClaimedIsWave(db, specs, step, claimed);
    ContinuesWork(db, before, specs, step, claimed, now);
    WaveIsClaimed(db, After(before, commands), specs, step + 1, now);
  }

  lemma CompletesFinish(db: Flows, specs: seq<WorkflowSpec>, step: nat, claimed: nat, now: nat, result: Option<Bytes>)
    requires DistinctFlows(specs)
    ensures var before, commands := Claimed(db, specs, step, claimed), Completes(JobsAt(specs, step, claimed), now, result);
            && After(before, commands) == Finished(db, specs, step, claimed, result)
            && WaveJobs(before, commands).Some? && AllAccepted(Replies(before, commands))
  {
    var before, commands := Claimed(db, specs, step, claimed), Completes(JobsAt(specs, step, claimed), now, result);
    ClaimedIsWave(db, specs, step, claimed);
    CompletesWork(db, before, specs, step, claimed, now, result);
    WaveIsFinished(db, After(before, commands), specs, step, claimed, result);
  }

  function Max1(steps: int): nat { if steps >= 1 then steps else 1 }

  function ProgressAt(db: Flows, specs: seq<WorkflowSpec>, k: nat, now: nat): Progress {
    Progress(Claimed(db, specs, k, now), Some(JobsAt(specs, k, now)))
  }

  lemma StartProgress(db: Flows, specs: seq<WorkflowSpec>, now: nat, payload: Option<Bytes>)
    requires DistinctFlows(specs) && NewFlows(db, specs)
    ensures Sent(db, Starts(specs, now, payload)) == ProgressAt(db, specs, 1, now)
  {
    StartsClaim(db, specs, now, payload);
  }

  lemma ContinueProgress(db: Flows, specs: seq<WorkflowSpec>, k: nat, claimed: nat, now: nat)
    requires DistinctFlows(specs)
    ensures Continued(ProgressAt(db, specs, k, claimed), k, now) == ProgressAt(db, specs, k + 1, now)
  {
    ContinuesClaim(db, specs, k, claimed, now);
  }

  lemma CompleteProgress(db: Flows, specs: seq<WorkflowSpec>, k: nat, claimed: nat, now: nat, result: Option<Bytes>)
    requires DistinctFlows(specs)
    ensures var p := Completed(ProgressAt(db, specs, k, claimed), now, result);
            p.flows == Finished(db, specs, k, claimed, result) && p.jobs.Some?
  {
    CompletesFinish(db, specs, k, claimed, now, result);
  }

  function Reached(db: Flows, specs: seq<WorkflowSpec>, clock: int -> nat): int -> Progress {
    (k: int) => ProgressAt(db, specs, Max1(k), clock(Max1(k) - 1))
  }

  lemma ReachesNext(db: Flows, specs: seq<WorkflowSpec>, clock: int -> nat, k: int)
    requires DistinctFlows(specs) && k >= 1
    ensures Continuer(clock)(Reached(db, specs, clock)(k), k) == Reached(db, specs, clock)(k + 1)
  {
    ContinueProgress(db, specs, k, clock(k - 1), clock(k));
  }

  /** The chain reaches every step, whatever the clock says. */
  lemma ChainReaches(db: Flows, specs: seq<WorkflowSpec>, clock: int -> nat, step: int, payload: Option<Bytes>)
    requires DistinctFlows(specs) && NewFlows(db, specs)
    ensures ChainUpTo(db, specs, clock, step, payload) == ProgressAt(db, specs, Max1(step), clock(Max1(step) - 1))
  {
    var at, next := Reached(db, specs, clock), Continuer(clock);
    StartProgress(db, specs, clock(0), payload);
    forall k | k >= 1 ensures next(at(k), k) == at(k + 1) {
      ReachesNext(db, specs, clock, k);
    }
    ChainedAt(Sent(db, Starts(specs, clock(0), payload)), next, at, step);
  }

  lemma PredictedJobsRight(specs: seq<WorkflowSpec>, start: nat, step: nat)
    requires step >= 1
    ensures PredictedJobs(specs, start, step) == JobsAt(specs, step, start + step - 1)
  {
  }

  lemma TerminalJobsRight(specs: seq<WorkflowSpec>, start: nat, steps: int)
    ensures TerminalJobs(specs, start, steps) == JobsAt(specs, Max1(steps), start + Max1(steps) - 1)
  {
  }

  lemma BothAccepted(a: seq<Reply>, b: seq<Reply>)
    requires AllAccepted(a) && AllAccepted(b)
    ensures AllAccepted(a + b)
  {
  }

  /** The predicted batch before step `k` was accepted and has claimed the flows there. */
  ghost predicate PredictionAt(db: Flows, specs: seq<WorkflowSpec>, start: nat, step: int, payload: Option<Bytes>, k: nat)
    requires k >= 1
  {
    && After(db, PredictedUpTo(specs, start, step, payload)) == Claimed(db, specs, k, start + k - 1)
    && AllAccepted(Replies(db, PredictedUpTo(specs, start, step, payload)))
  }

  lemma PredictionStarts(db: Flows, specs: seq<WorkflowSpec>, start: nat, step: int, payload: Option<Bytes>)
    requires DistinctFlows(specs) && NewFlows(db, specs) && step <= 1
    ensures PredictionAt(db, specs, start, step, payload, 1)
  {
    StartsClaim(db, specs, start, payload);
  }

  lemma PredictionContinues(db: Flows, specs: seq<WorkflowSpec>, start: nat, step: nat, payload: Option<Bytes>)
    requires DistinctFlows(specs) && step >= 1 && PredictionAt(db, specs, start, step, payload, step)
    ensures PredictionAt(db, specs, start, step + 1, payload, step + 1)
  {
    PredictedJobsRight(specs, start, step);
    ContinuesClaim(db, specs, step, start + step - 1, start + step);
    ThenAccepted(db, PredictedUpTo(specs, start, step, payload), Continues(PredictedJobs(specs, start, step), step, start + step));
  }

  /** The predicted batch up to a step is accepted: each predicted token is the one issued. */
  lemma {:induction false} PredictionReaches(db: Flows, specs: seq<WorkflowSpec>, start: nat, step: int, payload: Option<Bytes>)
    requires DistinctFlows(specs) && NewFlows(db, specs)
    ensures PredictionAt(db, specs, start, step, payload, Max1(step))
    decreases step
  {
    if step <= 1 {
      PredictionStarts(db, specs, start, step, payload);
    } else {
      PredictionReaches(db, specs, start, step - 1, payload);
      var k: nat := step - 1;
      assert Max1(step - 1) == k;
      assert PredictionAt(db, specs, start, step - 1, payload, k);
      PredictionContinues(db, specs, start, k, payload);
    }
  }

  lemma ThenAccepted(db: Flows, first: seq<Command>, second: seq<Command>)
    requires AllAccepted(Replies(db, first)) && AllAccepted(Replies(After(db, first), second))
    ensures AllAccepted(Replies(db, first + second)) && After(db, first + second) == After(After(db, first), second)
  {
    AfterConcat(db, first, second);
    RepliesConcat(db, first, second);
    BothAccepted(Replies(db, first), Replies(After(db, first), second));
  }

  lemma PredictionWorks(db: Flows, specs: seq<WorkflowSpec>, start: nat, steps: int, payload: Option<Bytes>, result: Option<Bytes>)
    requires DistinctFlows(specs) && NewFlows(db, specs)
    ensures var commands := PredictedCommands(specs, start, steps, payload, result);
            && AllAccepted(Replies(db, commands))
            && After(db, commands) == Finished(db, specs, Max1(steps), start + Max1(steps) - 1, result)
  {
    PredictionReaches(db, specs, start, steps, payload);
    TerminalJobsRight(specs, start, steps);
    CompletesFinish(db, specs, Max1(steps), start + Max1(steps) - 1, FinalTime(start, steps), result);
    ThenAccepted(db, PredictedUpTo(specs, start, steps, payload),
                 Completes(TerminalJobs(specs, start, steps), FinalTime(start, steps), result));
  }

  lemma PrefixAccepted(db: Flows, first: seq<Command>, second: seq<Command>)
    requires AllAccepted(Replies(db, first + second))
    ensures AllAccepted(Replies(db, first))
  {
    RepliesConcat(db, first, second);
    var replies := Replies(db, first);
    forall i | 0 <= i < |replies| ensures replies[i].Accepted? {
      assert Replies(db, first + second)[i] == replies[i];
    }
  }

  lemma FrontAccepted(db: Flows, specs: seq<WorkflowSpec>, now: nat, payload: Option<Bytes>)
    requires specs != [] && AllAccepted(Replies(db, Starts(specs, now, payload)))
    ensures var first := Starts(specs[..|specs| - 1], now, payload);
            AllAccepted(Replies(db, first)) && Lookup(After(db, first), specs[|specs| - 1].Flow()).None?
  {
    var n := |specs| - 1;
    var commands, first := Starts(specs, now, payload), Starts(specs[..n], now, payload);
    assert commands[..n] == first;
    assert commands == first + [commands[n]];
    PrefixAccepted(db, first, [commands[n]]);
    assert Replies(db, commands)[n] == Replied(After(db, first), commands[n]);
  }

  /** Starts that were all accepted named different, new flows. */
  lemma {:induction false} AcceptedStartsAreNew(db: Flows, specs: seq<WorkflowSpec>, now: nat, payload: Option<Bytes>)
    requires AllAccepted(Replies(db, Starts(specs, now, payload)))
    ensures DistinctFlows(specs) && NewFlows(db, specs)
  {
    if specs != [] {
      var front := specs[..|specs| - 1];
      FrontAccepted(db, specs, now, payload);
      AcceptedStartsAreNew(db, front, now, payload);
      StartsWork(db, front, now, payload);
      LastIsNew(db, After(db, Starts(front, now, payload)), specs, now);
    }
  }

  lemma LastIsNew(db: Flows, before: Flows, specs: seq<WorkflowSpec>, now: nat)
    requires specs != [] && WaveAt(db, before, specs[..|specs| - 1], 1, now)
    requires DistinctFlows(specs[..|specs| - 1]) && NewFlows(db, specs[..|specs| - 1])
    requires Lookup(before, specs[|specs| - 1].Flow()).None?
    ensures DistinctFlows(specs) && NewFlows(db, specs)
  {
    var n := |specs| - 1;
    var front, id := specs[..n], specs[n].Flow();
    forall i | 0 <= i < n ensures specs[i].Flow() != id && specs[i].Flow() !in db {
      assert front[i] == specs[i];
      assert Lookup(before, front[i].Flow()).Some?;
    }
    assert !IsOneOf(front, id);
    forall i, j | 0 <= i < j < |specs| ensures specs[i].Flow() != specs[j].Flow() {
      assert front[i] == specs[i];
      if j < n { assert front[j] == specs[j]; }
    }
  }

  lemma {:induction false} StartsAccepted(db: Flows, specs: seq<WorkflowSpec>, start: nat, step: int, payload: Option<Bytes>)
    requires AllAccepted(Replies(db, PredictedUpTo(specs, start, step, payload)))
    ensures AllAccepted(Replies(db, Starts(specs, start, payload)))
    decreases step
  {
    if step > 1 {
      PrefixAccepted(db, PredictedUpTo(specs, start, step - 1, payload),
                     Continues(PredictedJobs(specs, start, step - 1), step - 1, start + (step - 1)));
      StartsAccepted(db, specs, start, step - 1, payload);
    }
  }

  /**
   The whole interleaved batch is accepted if and only if the flows are new and
   different, for every list of specs and every number of steps.
   */
  lemma AcceptedIffNewAndDistinct(db: Flows, specs: seq<WorkflowSpec>, start: nat, steps: int, payload: Option<Bytes>,
                                  result: Option<Bytes>)
    ensures AllAccepted(Replies(db, PredictedCommands(specs, start, steps, payload, result)))
       <==> DistinctFlows(specs) && NewFlows(db, specs)
  {
    if DistinctFlows(specs) && NewFlows(db, specs) {
      PredictionWorks(db, specs, start, steps, payload, result);
    }
    if AllAccepted(Replies(db, PredictedCommands(specs, start, steps, payload, result))) {
      PrefixAccepted(db, PredictedUpTo(specs, start, steps, payload),
                     Completes(TerminalJobs(specs, start, steps), FinalTime(start, steps), result));
      StartsAccepted(db, specs, start, steps, payload);
      AcceptedStartsAreNew(db, specs, start, payload);
    }
  }

  lemma ChainWorks(db: Flows, specs: seq<WorkflowSpec>, clock: int -> nat, steps: int, payload: Option<Bytes>, result: Option<Bytes>)
    requires DistinctFlows(specs) && NewFlows(db, specs)
    ensures var p := Chain(db, specs, clock, steps, payload, result);
            p.flows == Finished(db, specs, Max1(steps), clock(Max1(steps) - 1), result) && p.jobs.Some?
  {
    ChainReaches(db, specs, clock, steps, payload);
    CompleteProgress(db, specs, Max1(steps), clock(Max1(steps) - 1), clock(steps), result);
  }

  /** The same flow up to the time in its lease token. */
  predicate Alike(a: Option<Flow>, b: Option<Flow>) {
    a == b || (a.Some? && b.Some? && a.value == b.value.(lease := b.value.lease.(nowMs := a.value.lease.nowMs)))
  }

  ghost predicate AllAlike(a: Flows, b: Flows) {
    forall id :: Alike(Lookup(a, id), Lookup(b, id))
  }

  lemma FinishedAlike(db: Flows, specs: seq<WorkflowSpec>, step: nat, t: nat, u: nat, result: Option<Bytes>)
    requires DistinctFlows(specs)
    ensures AllAlike(Finished(db, specs, step, t, result), Finished(db, specs, step, u, result))
  {
    FinishedIsWave(db, specs, step, t, result);
    FinishedIsWave(db, specs, step, u, result);
    forall id ensures Alike(Lookup(Finished(db, specs, step, t, result), id), Lookup(Finished(db, specs, step, u, result), id)) {
      if IsOneOf(specs, id) {
        var i :| 0 <= i < |specs| && specs[i].Flow() == id;
      }
    }
  }

  lemma FinishedSo(a: Flows, b: Flows, db: Flows, specs: seq<WorkflowSpec>, step: nat, t: nat, u: nat, result: Option<Bytes>)
    requires DistinctFlows(specs)
    requires a == Finished(db, specs, step, t, result) && b == Finished(db, specs, step, u, result)
    ensures AllAlike(a, b) && (t == u ==> a == b)
  {
    FinishedAlike(db, specs, step, t, u, result);
  }

  /**
   Refinement.  Whatever times the chain reads, the prediction leaves every flow
   as the chain does, up to the time in the lease token; when the times agree it
   leaves the very same server.
   */
  lemma PredictionRefinesChain(db: Flows, specs: seq<WorkflowSpec>, start: nat, clock: int -> nat, steps: int,
                               payload: Option<Bytes>, result: Option<Bytes>)
    requires DistinctFlows(specs) && NewFlows(db, specs)
    ensures var predicted := After(db, PredictedCommands(specs, start, steps, payload, result));
            var sequential := Chain(db, specs, clock, steps, payload, result);
            && sequential.jobs.Some?
            && AllAlike(predicted, sequential.flows)
            && (clock(Max1(steps) - 1) == start + Max1(steps) - 1 ==> predicted == sequential.flows)
  {
    PredictionWorks(db, specs, start, steps, payload, result);
    ChainWorks(db, specs, clock, steps, payload, result);
    FinishedSo(After(db, PredictedCommands(specs, start, steps, payload, result)),
               Chain(db, specs, clock, steps, payload, result).flows,
               db, specs, Max1(steps), start + Max1(steps) - 1, clock(Max1(steps) - 1), result);
  }

  /** Every flow of the wave ends completed with fencing token max(steps, 1), all others are as they were. */
  lemma PredictionCompletesWave(db: Flows, specs: seq<WorkflowSpec>, start: nat, steps: int, payload: Option<Bytes>, result: Option<Bytes>)
    requires DistinctFlows(specs) && NewFlows(db, specs)
    ensures WaveDone(db, After(db, PredictedCommands(specs, start, steps, payload, result)), specs, Max1(steps),
                     start + Max1(steps) - 1, result)
  {
    PredictionWorks(db, specs, start, steps, payload, result);
    FinishedIsWave(db, specs, Max1(steps), start + Max1(steps) - 1, result);
  }

  // ------------------------------------------------ the text of ids and tokens

  function Digit(d: nat): char
    requires d < 10
  {
    '0' + d as char
  }

  function Decimal(n: nat): string {
    if n < 10 then [Digit(n)] else Decimal(n / 10) + [Digit(n % 10)]
  }

  lemma {:induction false} DecimalShape(n: nat)
    ensures |Decimal(n)| >= 1 && (n >= 10 <==> |Decimal(n)| >= 2)
    ensures Decimal(n)[|Decimal(n)| - 1] == Digit(n % 10)
    ensures ':' !in Decimal(n)
  {
    if n >= 10 { DecimalShape(n / 10); }
  }

  lemma {:induction false} DecimalInjective(m: nat, n: nat)
    requires Decimal(m) == Decimal(n)
    ensures m == n
  {
    DecimalShape(m);
    DecimalShape(n);
    assert m % 10 == n % 10;
    if m >= 10 {
      var d, e := Decimal(m), Decimal(n);
      assert d[..|d| - 1] == Decimal(m / 10) && e[..|e| - 1] == Decimal(n / 10);
      DecimalInjective(m / 10, n / 10);
    }
  }

  /** Text cut at its last colon comes apart in one way only. */
  lemma CutAtLastColon(a: string, b: string, x: string, y: string)
    requires a + ":" + x == b + ":" + y && ':' !in x && ':' !in y
    ensures a == b && x == y
  {
    var s := a + ":" + x;
    assert s[|a|] == ':' && s[|b|] == ':';
    assert forall k | |a| < k < |s| :: s[k] == x[k - |a| - 1];
    assert forall k | |b| < k < |s| :: s[k] == y[k - |b| - 1];
    assert s[..|a|] == a && s[..|b|] == b;
    assert s[|a| + 1..] == x && (b + ":" + y)[|b| + 1..] == y;
  }

  function LeaseText(t: Lease): string { t.worker + ":" + Decimal(t.nowMs) + ":" + Decimal(t.fencing) }

  function FlowText(id: Id): string { id.runId + ":flow" + ":" + Decimal(id.index) }

  lemma TextIdentifiesLease(t: Lease, u: Lease)
    requires LeaseText(t) == LeaseText(u)
    ensures t == u
  {
    DecimalShape(t.fencing);
    DecimalShape(u.fencing);
    DecimalShape(t.nowMs);
    DecimalShape(u.nowMs);
    CutAtLastColon(t.worker + ":" + Decimal(t.nowMs), u.worker + ":" + Decimal(u.nowMs), Decimal(t.fencing), Decimal(u.fencing));
    CutAtLastColon(t.worker, u.worker, Decimal(t.nowMs), Decimal(u.nowMs));
    DecimalInjective(t.fencing, u.fencing);
    DecimalInjective(t.nowMs, u.nowMs);
  }

  lemma TextIdentifiesFlow(a: Id, b: Id)
    requires FlowText(a) == FlowText(b)
    ensures a == b
  {
    DecimalShape(a.index);
    DecimalShape(b.index);
    CutAtLastColon(a.runId + ":flow", b.runId + ":flow", Decimal(a.index), Decimal(b.index));
    DecimalInjective(a.index, b.index);
    assert (a.runId + ":flow")[..|a.runId|] == a.runId && (b.runId + ":flow")[..|b.runId|] == b.runId;
  }

  // ------------------------------------------------ the benchmark's functions

  class FlowServer {
    var flows: Flows

    constructor ()
      ensures flows == map[]
    {
      flows := map[];
    }

    method ExecuteBatch(commands: seq<Command>) returns (replies: seq<Reply>)
      modifies this
      ensures flows == After(old(flows), commands) && replies == Replies(old(flows), commands)
    {
      replies := [];
      for n := 0 to |commands|
        invariant flows == After(old(flows), commands[..n]) && replies == Replies(old(flows), commands[..n])
      {
        assert commands[..n + 1][..n] == commands[..n];
        replies := replies + [Replied(flows, commands[n])];
        flows := Applied(flows, commands[n]);
      }
      assert commands[..|commands|] == commands;
    }
  }

  /** The command list that `run_predicted_pipeline_wave_batch` builds. */
  method BuildPredictedCommands(specs: seq<WorkflowSpec>, start: nat, payload: Option<Bytes>, result: Option<Bytes>)
    returns (commands: seq<Command>)
    requires specs != []
    ensures commands == PredictedCommands(specs, start, specs[0].steps, payload, result)
  {
    commands := Starts(specs, start, payload);
    var steps := specs[0].steps;
    var step := 1;
    while step < steps
      invariant 1 <= step <= Max1(steps)
      invariant commands == PredictedUpTo(specs, start, step, payload)
    {
      commands := commands + Continues(PredictedJobs(specs, start, step), step, start + step);
      step := step + 1;
    }
    commands := commands + Completes(TerminalJobs(specs, start, steps), FinalTime(start, steps), result);
  }

  /** `run_predicted_pipeline_wave_batch`, with the time it reads; the empty list is an index error. */
  method RunPredictedPipelineWaveBatch(server: FlowServer, specs: seq<WorkflowSpec>, start: nat, payload: Option<Bytes>,
                                       result: Option<Bytes>) returns (replies: Option<seq<Reply>>)
    modifies server
    ensures replies.None? <==> specs == []
    ensures replies.None? ==> server.flows == old(server.flows)
    ensures replies.Some? ==> (AllAccepted(replies.value) <==> DistinctFlows(specs) && NewFlows(old(server.flows), specs))
    ensures replies.Some? && AllAccepted(replies.value) ==>
              server.flows == Finished(old(server.flows), specs, Max1(specs[0].steps), start + Max1(specs[0].steps) - 1, result)
  {
    if specs == [] { return None; }
    var commands := BuildPredictedCommands(specs, start, payload, result);
    AcceptedIffNewAndDistinct(server.flows, specs, start, specs[0].steps, payload, result);
    if DistinctFlows(specs) && NewFlows(server.flows, specs) {
      PredictionWorks(server.flows, specs, start, specs[0].steps, payload, result);
    }
    var answers := server.ExecuteBatch(commands);
    return Some(answers);
  }

  /** One wave of `run_wave_batch`: its replies become the next jobs, or it raises. */
  method SendWave(server: FlowServer, commands: seq<Command>) returns (jobs: Option<seq<Job>>)
    modifies server
    ensures Progress(server.flows, jobs) == Sent(old(server.flows), commands)
  {
    var replies := server.ExecuteBatch(commands);
    jobs := if AllAccepted(replies) then Some(JobsOf(replies)) else None;
  }

  /** The waves of `run_wave_batch` before the last, in its sequential mode. */
  method RunChain(server: FlowServer, specs: seq<WorkflowSpec>, clock: int -> nat, steps: int, payload: Option<Bytes>)
    returns (jobs: Option<seq<Job>>)
    modifies server
    ensures Progress(server.flows, jobs) == ChainUpTo(old(server.flows), specs, clock, steps, payload)
  {
    ghost var db := server.flows;
    jobs := SendWave(server, Starts(specs, clock(0), payload));
    var step := 1;
    while step < steps && jobs.Some?
      invariant 1 <= step <= Max1(steps)
      invariant Progress(server.flows, jobs) == ChainUpTo(db, specs, clock, step, payload)
    {
      jobs := SendWave(server, Continues(jobs.value, step, clock(step)));
      step := step + 1;
    }
    if step < steps { RefusalIsFinal(db, specs, clock, step, steps, payload); }
  }

  lemma RefusedStays(clock: int -> nat, p: Progress, k: int)
    requires p.jobs.None?
    ensures Continuer(clock)(p, k) == p
  {
    assert Continued(p, k, clock(k)) == p;
  }

  lemma RefusalIsFinal(db: Flows, specs: seq<WorkflowSpec>, clock: int -> nat, step: int, steps: int, payload: Option<Bytes>)
    requires 1 <= step <= steps && ChainUpTo(db, specs, clock, step, payload).jobs.None?
    ensures ChainUpTo(db, specs, clock, steps, payload) == ChainUpTo(db, specs, clock, step, payload)
  {
    var first, next := Sent(db, Starts(specs, clock(0), payload)), Continuer(clock);
    var p := Chained(first, next, step);
    forall k | k >= step ensures next(p, k) == p {
      RefusedStays(clock, p, k);
    }
    ChainedStays(first, next, step, steps);
  }

  /** `run_wave_batch` in its sequential mode. */
  method RunWaveBatch(server: FlowServer, specs: seq<WorkflowSpec>, clock: int -> nat, payload: Option<Bytes>,
                      result: Option<Bytes>) returns (ok: bool)
    modifies server
    ensures specs == [] ==> ok && server.flows == old(server.flows)
    ensures specs != [] ==> var p := Chain(old(server.flows), specs, clock, specs[0].steps, payload, result);
                            server.flows == p.flows && ok == p.jobs.Some?
  {
    if specs == [] { return true; }
    var jobs := RunChain(server, specs, clock, specs[0].steps, payload);
    if jobs.None? { return false; }
    var done := SendWave(server, Completes(jobs.value, clock(specs[0].steps), result));
    ok := done.Some?;
  }
}
