/**
 The durable step protocol of `AsyncFlowClient.step`.

 Any number of calls of `step`, issued by any number of workers with any job
 they like, run against one workflow record on a fenced server.  A call
 preflights its lease, looks for a journalled result, runs its closure and
 commits result and state move in one fenced command.  Calls can crash at any
 moment, leases are taken over at any moment, a commit command may be handled
 long after its caller is gone, and any reply may be lost.
 */
module DurableStep {
  import opened Common
  import Runs

  type Value(==, !new)
  type Bytes = seq<nat>
  type CallId = nat

  /**
   What surrounds the calls: the codec, and the errors that the executor can raise
   for a commit command that was applied or is still on its way.
   */
  datatype World = World(encode: Value -> Option<Bytes>, decode: Bytes -> Value, mayFollow: CommitError -> bool)

  /** A claimed job as a caller presents it; nothing forces it to be current. */
  datatype Job = Job(id: string, partition: string, lease: Bytes, fencing: int, state: string, runState: string)

  /** The workflow record.  `refs` maps a step's value name to its value reference. */
  datatype Record = Record(id: string, partition: string, lease: Bytes, fencing: int,
                           state: string, runState: string, refs: map<string, nat>)

  /** One accepted journalling commit; its position in the history is its value reference. */
  datatype Commit = Commit(name: string, value: Bytes, toState: string, caller: CallId)

  datatype CommitRequest = CommitRequest(job: Job, name: string, toState: string, value: Bytes)
  datatype CommitReply = Applied(renewed: Job) | Rejected
  datatype PreflightReply = Extended(snapshot: Record, at: nat) | Stale

  datatype StepError =
    | StaleLease | PreflightMismatch | WrongTargetState | ResultMissing | TransportFailed
    | ClosureRaised | EncodeFailed | CommitFailed | OutcomeUnknown

  datatype Phase =
    | Preflight
    | Fetching(snapshot: Record, ref: nat)
    | Closure(snapshot: Record, at: nat)
    | Committing(value: Bytes)
    | Returned(claim: Job, result: Value)
    | Raised(error: StepError)
    | Crashed

  datatype Call = Call(job: Job, name: string, toState: string, phase: Phase)

  /** One execution of a closure; `at` is the number of commits its preflight had seen. */
  datatype ClosureRun = ClosureRun(caller: CallId, name: string, at: nat)

  datatype State = State(
    rec: Record,
    commits: seq<Commit>,
    calls: map<CallId, Call>,
    preflights: map<CallId, PreflightReply>,
    requests: map<CallId, CommitRequest>,
    replies: map<CallId, CommitReply>,
    runs: seq<ClosureRun>)

  /** What the executor can raise for the commit command. */
  datatype CommitError =
    | UnknownOutcomeError
    | HttpFailure(status: int, code: string, safeToRetry: bool)
    | FerricFailure
    | LocalException                       // TypeError, ValueError, OverflowError
    | OtherException

  const REJECTED_STATUSES: set<int> :=
    {400, 401, 403, 404, 405, 406, 411, 413, 414, 415, 422, 426, 431}

  const REJECTED_CODES: set<string> :=
    {"auth", "unauthorized", "noperm", "forbidden", "bad_request", "invalid_command", "invalid_request",
     "not_found", "flow_not_found", "stale_lease", "wrong_state", "conflict", "request_too_large"}

  /** Whether a failed commit may nevertheless have been applied. */
  predicate OutcomeIsUnknown(e: CommitError) {
    match e
    case UnknownOutcomeError => true
    case OtherException => true
    case FerricFailure => false
    case LocalException => false
    case HttpFailure(status, code, safe) =>
      if status == 408 || code == "request_timeout" then true
      else if safe then false
      else if code in REJECTED_CODES then false
      else status !in REJECTED_STATUSES
  }

  /** How `step` ends when the commit command fails with an error. */
  function RaisedBy(e: CommitError): Phase {
    Raised(if OutcomeIsUnknown(e) then OutcomeUnknown else CommitFailed)
  }

  /** The classification covers a world: whatever error can follow an applied commit is called unknown. */
  ghost predicate Classified(w: World) {
    forall e :: w.mayFollow(e) ==> OutcomeIsUnknown(e)
  }

  /** How the commit command leaves the client: on the wire, or not at all. */
  datatype Wire = Sent | NotSent(error: CommitError)

  /** What can happen to one call. */
  datatype Event =
    | SeePreflight
    | ReadValue(found: bool)
    | FinishClosure(value: Value, wire: Wire)
    | FailClosure
    | SeeCommit
    | SeeCommitError(error: CommitError)
    | LoseReply
    | Crash

  datatype Action =
    | Claim(lease: Bytes, bump: nat)
    | OtherMutation(to: Record)
    | Begin(c: CallId, job: Job, name: string, toState: string)
    | HandlePreflight(c: CallId)
    | HandleCommit(c: CallId, lease: Bytes, bump: nat)
    | Progress(c: CallId, event: Event)

  predicate ValidJob(job: Job, toState: string) {
    && job.id != "" && job.lease != [] && job.fencing > 0
    && (job.state == "" || job.state == "running")
    && job.runState != "" && toState != ""
  }

  /** The server's fence: identity, lease token, fencing token and a running record. */
  predicate HoldsLease(rec: Record, job: Job) {
    && rec.id == job.id && rec.partition == job.partition
    && rec.lease == job.lease && rec.fencing == job.fencing && rec.state == "running"
  }

  predicate PreflightMatches(job: Job, rec: Record) {
    && rec.id == job.id && rec.partition == job.partition
    && rec.lease == job.lease && rec.fencing == job.fencing
    && rec.state == "running" && rec.runState == job.runState
  }

  predicate RefreshedClaimOk(previous: Job, renewed: Job, toState: string) {
    && renewed.id == previous.id && renewed.partition == previous.partition
    && renewed.lease != [] && renewed.lease != previous.lease
    && renewed.fencing > previous.fencing
    && renewed.state == "running" && renewed.runState == toState
  }

  function ClaimOf(rec: Record): Job {
    Job(rec.id, rec.partition, rec.lease, rec.fencing, rec.state, rec.runState)
  }

  predicate Ended(p: Phase) {
    p.Returned? || p.Raised? || p.Crashed?
  }

  /** The fenced continue: accepted exactly for the current claim in its current state. */
  predicate CommitAccepted(rec: Record, q: CommitRequest) {
    HoldsLease(rec, q.job) && rec.runState == q.job.runState
  }

  function AfterCommit(rec: Record, q: CommitRequest, ref: nat, lease: Bytes, bump: nat): Record {
    rec.(lease := lease, fencing := rec.fencing + 1 + bump, runState := q.toState, refs := rec.refs[q.name := ref])
  }

  // What a call does when its preflight answer arrives.
  function AfterPreflight(call: Call, reply: PreflightReply): Phase {
    match reply
    case Stale => Raised(StaleLease)
    case Extended(snapshot, at) =>
      if !PreflightMatches(call.job, snapshot) then Raised(PreflightMismatch)
      else if call.name in snapshot.refs then
        if snapshot.runState != call.toState then Raised(WrongTargetState)
        else Fetching(snapshot, snapshot.refs[call.name])
      else Closure(snapshot, at)
  }

  function AfterClosure(w: World, value: Value, wire: Wire): Phase {
    match w.encode(value)
    case None => Raised(EncodeFailed)
    case Some(encoded) =>
      match wire
      case NotSent(error) => RaisedBy(error)
      case Sent => Committing(encoded)
  }

  /** The phase of a call after an event; an event it is not waiting for changes nothing. */
  function NextPhase(w: World, s: State, c: CallId, e: Event): Phase
    requires c in s.calls
  {
    var call := s.calls[c];
    var p := call.phase;
    match e
    case SeePreflight =>
      if p.Preflight? && c in s.preflights then AfterPreflight(call, s.preflights[c]) else p
    case ReadValue(found) =>
      if !p.Fetching? || p.ref >= |s.commits| then p
      else if found then Returned(ClaimOf(p.snapshot), w.decode(s.commits[p.ref].value))
      else Raised(ResultMissing)
    case FinishClosure(value, wire) => if p.Closure? then AfterClosure(w, value, wire) else p
    case FailClosure => if p.Closure? then Raised(ClosureRaised) else p
    case SeeCommit =>
      if !p.Committing? || c !in s.replies || s.replies[c].Rejected? then p
      else if RefreshedClaimOk(call.job, s.replies[c].renewed, call.toState)
      then Returned(s.replies[c].renewed, w.decode(p.value))
      else Raised(OutcomeUnknown)
    case SeeCommitError(error) =>
      // After a refusal any error can come; before, and after an apply, only one that may follow it.
      if p.Committing? && ((c in s.replies && s.replies[c].Rejected?) || w.mayFollow(error)) then RaisedBy(error) else p
    case LoseReply => if p.Preflight? || p.Fetching? then Raised(TransportFailed) else p
    case Crash => if Ended(p) then p else Crashed
  }

  /** Entering the closure is logged; entering the commit puts its command on the wire. */
  function Progressed(s: State, c: CallId, p: Phase): State
    requires c in s.calls
  {
    var call := s.calls[c];
    var t := s.(calls := s.calls[c := call.(phase := p)]);
    if p.Closure? && !call.phase.Closure? then
      t.(runs := s.runs + [ClosureRun(c, call.name, p.at)])
    else if p.Committing? && !call.phase.Committing? then
      t.(requests := s.requests[c := CommitRequest(call.job, call.name, call.toState, p.value)])
    else t
  }

  function HandledCommit(s: State, c: CallId, lease: Bytes, bump: nat): State
    requires c in s.requests
  {
    var q := s.requests[c];
    if CommitAccepted(s.rec, q) then
      var rec := AfterCommit(s.rec, q, |s.commits|, lease, bump);
      s.(rec := rec,
         commits := s.commits + [Commit(q.name, q.value, q.toState, c)],
         replies := s.replies[c := Applied(ClaimOf(rec))])
    else
      s.(replies := s.replies[c := Rejected])
  }

  /** One step of the system; an action that cannot happen now changes nothing. */
  function Step(w: World, s: State, a: Action): State {
    match a
    case Claim(lease, bump) =>
      s.(rec := s.rec.(lease := lease, fencing := s.rec.fencing + 1 + bump, state := "running"))
    case OtherMutation(to) =>
      if to.id == s.rec.id && to.partition == s.rec.partition
         && to.fencing >= s.rec.fencing && to.refs == s.rec.refs
      then s.(rec := to) else s
    case Begin(c, job, name, toState) =>
      if c !in s.calls && c !in s.preflights && c !in s.requests && c !in s.replies && ValidJob(job, toState)
      then s.(calls := s.calls[c := Call(job, name, toState, Preflight)]) else s
    case HandlePreflight(c) =>
      if c in s.calls && c !in s.preflights then
        s.(preflights := s.preflights[c := if HoldsLease(s.rec, s.calls[c].job)
                                           then Extended(s.rec, |s.commits|) else Stale])
      else s
    case HandleCommit(c, lease, bump) =>
      if c in s.requests && c !in s.replies then HandledCommit(s, c, lease, bump) else s
    case Progress(c, e) =>
      if c in s.calls then Progressed(s, c, NextPhase(w, s, c, e)) else s
  }

  function Stepper(w: World): (State, Action) -> State {
    (s: State, a: Action) => Step(w, s, a)
  }

  function Run(w: World, s: State, actions: seq<Action>): State {
    Runs.Run(Stepper(w), s, actions)
  }

  /** A record whose step journal is empty, and nobody has called `step` yet. */
  predicate Initial(s: State) {
    && s.rec.refs == map[] && s.commits == [] && s.calls == map[]
    && s.preflights == map[] && s.requests == map[] && s.replies == map[] && s.runs == []
  }

  // ---------------------------------------------------------------- safety

  ghost predicate UniqueNames(s: State) {
    forall i, j :: 0 <= i < j < |s.commits| ==> s.commits[i].name != s.commits[j].name
  }

  /** The value a normal return carries is the decoded value of the commit under its name. */
  ghost predicate ReturnsCommitted(w: World, s: State) {
    forall c :: c in s.calls && s.calls[c].phase.Returned? ==>
      exists i :: 0 <= i < |s.commits| && s.commits[i].name == s.calls[c].name
                  && s.calls[c].phase.result == w.decode(s.commits[i].value)
  }

  /** No closure ran whose preflight was answered after a commit under its name. */
  ghost predicate ClosuresPrecedeCommits(s: State) {
    forall k :: 0 <= k < |s.runs| ==>
      s.runs[k].at <= |s.commits| &&
      forall i :: 0 <= i < s.runs[k].at ==> s.commits[i].name != s.runs[k].name
  }

  ghost predicate CommittedBy(s: State, c: CallId) {
    exists i :: 0 <= i < |s.commits| && s.commits[i].caller == c
  }

  predicate DefiniteFailure(p: Phase) {
    p.Raised? && !p.error.OutcomeUnknown?
  }

  /** A call that raised anything but "outcome unknown" has committed nothing. */
  ghost predicate DefiniteFailuresUncommitted(s: State) {
    forall c :: c in s.calls && DefiniteFailure(s.calls[c].phase) ==> !CommittedBy(s, c)
  }

  ghost predicate Safe(w: World, s: State) {
    && UniqueNames(s) && ReturnsCommitted(w, s) && ClosuresPrecedeCommits(s)
    && (Classified(w) ==> DefiniteFailuresUncommitted(s))
  }

  // ------------------------------------------------- the inductive invariant
  //
  // Each part names only the components it speaks about, so that a step which
  // leaves them alone keeps it for free.

  ghost predicate JournalOk(refs: map<string, nat>, commits: seq<Commit>) {
    && (forall n :: n in refs ==> refs[n] < |commits| && commits[refs[n]].name == n)
    && (forall i :: 0 <= i < |commits| ==> commits[i].name in refs && refs[commits[i].name] == i)
  }

  /** What an old answer to EXTEND_LEASE still tells about the server. */
  ghost predicate SnapshotOk(rec: Record, commits: seq<Commit>, snap: Record, at: nat) {
    && at <= |commits|
    && snap.fencing <= rec.fencing
    && (snap.fencing == rec.fencing ==> snap.refs == rec.refs)
    && (forall n :: n in snap.refs ==> snap.refs[n] < at && commits[snap.refs[n]].name == n)
    && (forall i :: 0 <= i < at ==> commits[i].name in snap.refs)
  }

  ghost predicate PreflightsOk(rec: Record, commits: seq<Commit>, preflights: map<CallId, PreflightReply>) {
    forall c :: c in preflights && preflights[c].Extended? ==>
      SnapshotOk(rec, commits, preflights[c].snapshot, preflights[c].at)
  }

  /** The call passed its preflight and saw no journalled value. */
  ghost predicate Cleared(preflights: map<CallId, PreflightReply>, c: CallId, job: Job, name: string) {
    && c in preflights && preflights[c].Extended?
    && PreflightMatches(job, preflights[c].snapshot)
    && name !in preflights[c].snapshot.refs
  }

  ghost predicate RequestsOk(preflights: map<CallId, PreflightReply>, requests: map<CallId, CommitRequest>) {
    forall c :: c in requests ==> Cleared(preflights, c, requests[c].job, requests[c].name)
  }

  ghost predicate HasCommit(commits: seq<Commit>, c: CallId, name: string, value: Bytes) {
    exists i :: 0 <= i < |commits| && commits[i].caller == c && commits[i].name == name && commits[i].value == value
  }

  ghost predicate RepliesOk(commits: seq<Commit>, requests: map<CallId, CommitRequest>, replies: map<CallId, CommitReply>) {
    && (forall c :: c in replies ==> c in requests)
    && (forall c :: c in replies && replies[c].Applied? ==>
          HasCommit(commits, c, requests[c].name, requests[c].value))
    && (forall i :: 0 <= i < |commits| ==>
          commits[i].caller in replies && replies[commits[i].caller].Applied?)
  }

  ghost predicate Journalled(w: World, commits: seq<Commit>, name: string, result: Value) {
    exists i :: 0 <= i < |commits| && commits[i].name == name && result == w.decode(commits[i].value)
  }

  ghost predicate CallOk(w: World, commits: seq<Commit>, preflights: map<CallId, PreflightReply>,
                         requests: map<CallId, CommitRequest>, replies: map<CallId, CommitReply>, c: CallId, call: Call)
  {
    match call.phase
    case Preflight => c !in requests
    case Fetching(snap, ref) => c !in requests && ref < |commits| && commits[ref].name == call.name
    case Closure(snap, at) => c !in requests && Cleared(preflights, c, call.job, call.name)
    case Committing(value) => c in requests && requests[c].name == call.name && requests[c].value == value
    case Returned(_, result) => Journalled(w, commits, call.name, result)
    case Raised(e) => !Classified(w) || e.OutcomeUnknown? || c !in requests || (c in replies && replies[c].Rejected?)
    case Crashed => true
  }

  ghost predicate CallsOk(w: World, s: State) {
    forall c :: c in s.calls ==> CallOk(w, s.commits, s.preflights, s.requests, s.replies, c, s.calls[c])
  }

  ghost predicate Inv(w: World, s: State) {
    && JournalOk(s.rec.refs, s.commits)
    && PreflightsOk(s.rec, s.commits, s.preflights)
    && RequestsOk(s.preflights, s.requests)
    && RepliesOk(s.commits, s.requests, s.replies)
    && CallsOk(w, s)
    && s.preflights.Keys <= s.calls.Keys && s.requests.Keys <= s.calls.Keys
    && ClosuresPrecedeCommits(s)
  }

  lemma InvImpliesSafe(w: World, s: State)
    requires Inv(w, s)
    ensures Safe(w, s)
  {
    forall c | c in s.calls && s.calls[c].phase.Returned?
      ensures exists i :: 0 <= i < |s.commits| && s.commits[i].name == s.calls[c].name
                          && s.calls[c].phase.result == w.decode(s.commits[i].value)
    {
      assert Journalled(w, s.commits, s.calls[c].name, s.calls[c].phase.result);
    }
  }

  /** `t` knows at least what `s` knew. */
  ghost predicate Extends(s: State, t: State) {
    && |s.commits| <= |t.commits| && (forall i :: 0 <= i < |s.commits| ==> t.commits[i] == s.commits[i])
    && (forall c :: c in s.preflights ==> c in t.preflights && t.preflights[c] == s.preflights[c])
    && (forall c :: c in s.requests ==> c in t.requests && t.requests[c] == s.requests[c])
    && (forall c :: c in s.replies ==> c in t.replies && t.replies[c] == s.replies[c])
  }

  lemma CallStaysOk(w: World, s: State, t: State, c: CallId, call: Call)
    requires Extends(s, t)
    requires c in t.requests ==> c in s.requests
    requires CallOk(w, s.commits, s.preflights, s.requests, s.replies, c, call)
    ensures CallOk(w, t.commits, t.preflights, t.requests, t.replies, c, call)
  {
    if call.phase.Returned? {
      var i :| 0 <= i < |s.commits| && s.commits[i].name == call.name
               && call.phase.result == w.decode(s.commits[i].value);
      assert t.commits[i] == s.commits[i];
    }
  }

  /** Calls that did not move stay justified when knowledge grows. */
  lemma CallsStayOk(w: World, s: State, t: State)
    requires CallsOk(w, s) && Extends(s, t)
    requires t.calls == s.calls && t.requests == s.requests
    ensures CallsOk(w, t)
  {
    forall d | d in t.calls
      ensures CallOk(w, t.commits, t.preflights, t.requests, t.replies, d, t.calls[d])
    {
      CallStaysOk(w, s, t, d, s.calls[d]);
    }
  }

  lemma BeginKeepsInv(w: World, s: State, c: CallId, call: Call)
    requires Inv(w, s) && c !in s.calls && call.phase.Preflight?
    ensures Inv(w, s.(calls := s.calls[c := call]))
  {
  }

  /** A change of the record that keeps the journal and does not lower the fence. */
  lemma RecordStepKeepsInv(w: World, s: State, rec: Record)
    requires Inv(w, s)
    requires rec.refs == s.rec.refs && rec.fencing >= s.rec.fencing
    ensures Inv(w, s.(rec := rec))
  {
  }

  lemma PreflightKeepsInv(w: World, s: State, c: CallId, reply: PreflightReply)
    requires Inv(w, s) && c in s.calls && c !in s.preflights
    requires reply == Stale || reply == Extended(s.rec, |s.commits|)
    ensures Inv(w, s.(preflights := s.preflights[c := reply]))
  {
    var t := s.(preflights := s.preflights[c := reply]);
    assert SnapshotOk(s.rec, s.commits, s.rec, |s.commits|);
    CallsStayOk(w, s, t);
    assert RequestsOk(t.preflights, t.requests);
  }

  /** Accepting a commit: its fencing token is current, so its preflight saw the current journal. */
  lemma AcceptedNameIsFresh(w: World, s: State, c: CallId)
    requires Inv(w, s) && c in s.requests && CommitAccepted(s.rec, s.requests[c])
    ensures s.requests[c].name !in s.rec.refs
  {
    assert Cleared(s.preflights, c, s.requests[c].job, s.requests[c].name);
    assert SnapshotOk(s.rec, s.commits, s.preflights[c].snapshot, s.preflights[c].at);
  }

  lemma SnapshotsSurviveCommit(rec: Record, commits: seq<Commit>, preflights: map<CallId, PreflightReply>,
                               rec': Record, m: Commit)
    requires PreflightsOk(rec, commits, preflights) && rec'.fencing > rec.fencing
    ensures PreflightsOk(rec', commits + [m], preflights)
  {
    var commits' := commits + [m];
    assert forall i :: 0 <= i < |commits| ==> commits'[i] == commits[i];
    forall c | c in preflights && preflights[c].Extended?
      ensures SnapshotOk(rec', commits', preflights[c].snapshot, preflights[c].at)
    {
      assert SnapshotOk(rec, commits, preflights[c].snapshot, preflights[c].at);
    }
  }

  lemma RepliesSurviveCommit(commits: seq<Commit>, requests: map<CallId, CommitRequest>,
                             replies: map<CallId, CommitReply>, c: CallId, renewed: Job)
    requires RepliesOk(commits, requests, replies) && c in requests && c !in replies
    ensures RepliesOk(commits + [Commit(requests[c].name, requests[c].value, requests[c].toState, c)],
                      requests, replies[c := Applied(renewed)])
  {
    var commits' := commits + [Commit(requests[c].name, requests[c].value, requests[c].toState, c)];
    var replies' := replies[c := Applied(renewed)];
    assert forall i :: 0 <= i < |commits| ==> commits'[i] == commits[i];
    assert commits'[|commits|].caller == c;
    forall d | d in replies' && replies'[d].Applied?
      ensures HasCommit(commits', d, requests[d].name, requests[d].value)
    {
      if d != c {
        var i :| 0 <= i < |commits| && commits[i].caller == d
                 && commits[i].name == requests[d].name && commits[i].value == requests[d].value;
        assert commits'[i] == commits[i];
      }
    }
  }

  lemma JournalSurvivesCommit(refs: map<string, nat>, commits: seq<Commit>, m: Commit)
    requires JournalOk(refs, commits) && m.name !in refs
    ensures JournalOk(refs[m.name := |commits|], commits + [m])
  {
  }

  lemma ClosuresSurvive(s: State, t: State)
    requires ClosuresPrecedeCommits(s) && t.runs == s.runs && s.commits <= t.commits
    ensures ClosuresPrecedeCommits(t)
  {
  }

  lemma HistoryGrows(s: State, c: CallId, lease: Bytes, bump: nat)
    requires c in s.requests && c !in s.replies
    ensures var t := HandledCommit(s, c, lease, bump); Extends(s, t) && s.commits <= t.commits && t.runs == s.runs
  {
  }

  lemma AcceptedCommitKeepsInv(w: World, s: State, c: CallId, lease: Bytes, bump: nat)
    requires Inv(w, s)
    requires c in s.requests && c !in s.replies && CommitAccepted(s.rec, s.requests[c])
    ensures Inv(w, HandledCommit(s, c, lease, bump))
  {
    var t := HandledCommit(s, c, lease, bump);
    var q := s.requests[c];
    var m := Commit(q.name, q.value, q.toState, c);
    AcceptedNameIsFresh(w, s, c);
    JournalSurvivesCommit(s.rec.refs, s.commits, m);
    RepliesSurviveCommit(s.commits, s.requests, s.replies, c, ClaimOf(t.rec));
    SnapshotsSurviveCommit(s.rec, s.commits, s.preflights, t.rec, m);
    HistoryGrows(s, c, lease, bump);
    CallsStayOk(w, s, t);
    ClosuresSurvive(s, t);
  }

  lemma RepliesSurviveRefusal(commits: seq<Commit>, requests: map<CallId, CommitRequest>,
                              replies: map<CallId, CommitReply>, c: CallId)
    requires RepliesOk(commits, requests, replies) && c in requests && c !in replies
    ensures RepliesOk(commits, requests, replies[c := Rejected])
  {
  }

  lemma RefusedCommitKeepsInv(w: World, s: State, c: CallId)
    requires Inv(w, s) && c in s.requests && c !in s.replies
    ensures Inv(w, s.(replies := s.replies[c := Rejected]))
  {
    var t := s.(replies := s.replies[c := Rejected]);
    RepliesSurviveRefusal(s.commits, s.requests, s.replies, c);
    CallsStayOk(w, s, t);
  }

  /** A call may move to phase `p`: it is justified by what the parties know. */
  ghost predicate MayMove(w: World, s: State, c: CallId, p: Phase)
    requires c in s.calls
  {
    if p.Committing? && !s.calls[c].phase.Committing?
    then c !in s.requests && Cleared(s.preflights, c, s.calls[c].job, s.calls[c].name)
    else CallOk(w, s.commits, s.preflights, s.requests, s.replies, c, s.calls[c].(phase := p))
  }

  lemma SeenPreflightOk(w: World, s: State, c: CallId)
    requires Inv(w, s) && c in s.calls
    ensures MayMove(w, s, c, NextPhase(w, s, c, SeePreflight))
  {
    assert CallOk(w, s.commits, s.preflights, s.requests, s.replies, c, s.calls[c]);
    if c in s.preflights && s.preflights[c].Extended? {
      assert SnapshotOk(s.rec, s.commits, s.preflights[c].snapshot, s.preflights[c].at);
    }
  }

  lemma SeenCommitOk(w: World, s: State, c: CallId)
    requires Inv(w, s) && c in s.calls
    ensures MayMove(w, s, c, NextPhase(w, s, c, SeeCommit))
  {
    assert CallOk(w, s.commits, s.preflights, s.requests, s.replies, c, s.calls[c]);
    if s.calls[c].phase.Committing? && c in s.replies && s.replies[c].Applied? {
      assert HasCommit(s.commits, c, s.requests[c].name, s.requests[c].value);
      assert Journalled(w, s.commits, s.calls[c].name, w.decode(s.calls[c].phase.value));
    }
  }

  /** The next phase of a call is justified, given what the parties know. */
  lemma NextPhaseOk(w: World, s: State, c: CallId, e: Event)
    requires Inv(w, s) && c in s.calls
    ensures MayMove(w, s, c, NextPhase(w, s, c, e))
  {
    match e
    case SeePreflight => SeenPreflightOk(w, s, c);
    case SeeCommit => SeenCommitOk(w, s, c);
    case _ => assert CallOk(w, s.commits, s.preflights, s.requests, s.replies, c, s.calls[c]);
  }

  ghost predicate PrecedesCommits(s: State, c: CallId, at: nat)
    requires c in s.calls
  {
    at <= |s.commits| && forall i :: 0 <= i < at ==> s.commits[i].name != s.calls[c].name
  }

  lemma EnteredClosurePrecedesCommits(w: World, s: State, c: CallId, e: Event)
    requires Inv(w, s) && c in s.calls && !s.calls[c].phase.Closure?
    requires NextPhase(w, s, c, e).Closure?
    ensures PrecedesCommits(s, c, NextPhase(w, s, c, e).at)
  {
    assert e.SeePreflight? && c in s.preflights;
    assert SnapshotOk(s.rec, s.commits, s.preflights[c].snapshot, s.preflights[c].at);
  }

  lemma MovingKeepsInv(w: World, s: State, c: CallId, p: Phase)
    requires Inv(w, s) && c in s.calls && MayMove(w, s, c, p)
    requires p.Closure? && !s.calls[c].phase.Closure? ==> PrecedesCommits(s, c, p.at)
    ensures Inv(w, Progressed(s, c, p))
  {
    MovedCallsOk(w, s, c, p);
  }

  lemma MovedCallsOk(w: World, s: State, c: CallId, p: Phase)
    requires CallsOk(w, s) && c in s.calls && MayMove(w, s, c, p)
    ensures CallsOk(w, Progressed(s, c, p))
  {
    var t := Progressed(s, c, p);
    forall d | d in t.calls
      ensures CallOk(w, t.commits, t.preflights, t.requests, t.replies, d, t.calls[d])
    {
      if d != c { CallStaysOk(w, s, t, d, s.calls[d]); }
    }
  }

  lemma ProgressKeepsInv(w: World, s: State, c: CallId, e: Event)
    requires Inv(w, s) && c in s.calls
    ensures Inv(w, Progressed(s, c, NextPhase(w, s, c, e)))
  {
    var p := NextPhase(w, s, c, e);
    NextPhaseOk(w, s, c, e);
    if p.Closure? && !s.calls[c].phase.Closure? {
      EnteredClosurePrecedesCommits(w, s, c, e);
    }
    MovingKeepsInv(w, s, c, p);
  }

  lemma StepKeepsInv(w: World, s: State, a: Action)
    requires Inv(w, s)
    ensures Inv(w, Step(w, s, a))
  {
    var t := Step(w, s, a);
    match a
    case Claim(_, _) => RecordStepKeepsInv(w, s, t.rec);
    case OtherMutation(_) => RecordStepKeepsInv(w, s, t.rec);
    case Begin(c, job, name, toState) =>
      if c !in s.calls { BeginKeepsInv(w, s, c, Call(job, name, toState, Preflight)); }
    case HandlePreflight(c) =>
      if c in s.calls && c !in s.preflights { PreflightKeepsInv(w, s, c, t.preflights[c]); }
    case HandleCommit(c, lease, bump) =>
      if c in s.requests && c !in s.replies {
        if CommitAccepted(s.rec, s.requests[c]) {
          AcceptedCommitKeepsInv(w, s, c, lease, bump);
        } else {
          RefusedCommitKeepsInv(w, s, c);
        }
      }
    case Progress(c, e) =>
      if c in s.calls { ProgressKeepsInv(w, s, c, e); }
  }

  lemma {:induction false} RunKeepsInv(w: World, s: State, actions: seq<Action>)
    requires Inv(w, s)
    ensures Inv(w, Run(w, s, actions))
    decreases |actions|
  {
    if actions != [] {
      var front := actions[..|actions| - 1];
      RunKeepsInv(w, s, front);
      StepKeepsInv(w, Run(w, s, front), actions[|actions| - 1]);
    }
  }

  /**
   The main result, over every interleaving of any number of calls with
   crashes, takeovers, delayed commits and lost replies: at most one result is
   committed per name, every normal return carries that result, no closure runs
   on a preflight that could have seen the commit, and, where the classification
   covers the errors, a definite failure means that this call committed nothing.
   */
  lemma DurableStepIsSafe(w: World, s: State, actions: seq<Action>)
    requires Initial(s)
    ensures Safe(w, Run(w, s, actions))
  {
    RunKeepsInv(w, s, actions);
    InvImpliesSafe(w, Run(w, s, actions));
  }

  // ---------------------------------------------------- outcomes are final

  ghost predicate CallsLater(calls: map<CallId, Call>, calls': map<CallId, Call>) {
    forall c :: c in calls ==>
      c in calls' && calls'[c].name == calls[c].name
      && (Ended(calls[c].phase) ==> calls'[c].phase == calls[c].phase)
  }

  /** `t` is later than `s`: the history grew, calls kept their arguments and outcomes. */
  ghost predicate Later(s: State, t: State) {
    s.commits <= t.commits && CallsLater(s.calls, t.calls)
  }

  lemma OutcomeIsKept(w: World, s: State, c: CallId, e: Event)
    requires c in s.calls && Ended(s.calls[c].phase)
    ensures NextPhase(w, s, c, e) == s.calls[c].phase
  {
  }

  lemma StepIsLater(w: World, s: State, a: Action)
    ensures Later(s, Step(w, s, a))
  {
    if a.Progress? && a.c in s.calls && Ended(s.calls[a.c].phase) {
      OutcomeIsKept(w, s, a.c, a.event);
    }
  }

  lemma LaterComposes(s: State, t: State, u: State)
    requires Later(s, t) && Later(t, u)
    ensures Later(s, u)
  {
  }

  lemma {:induction false} RunIsLater(w: World, s: State, actions: seq<Action>)
    ensures Later(s, Run(w, s, actions))
    decreases |actions|
  {
    if actions != [] {
      var front := actions[..|actions| - 1];
      RunIsLater(w, s, front);
      StepIsLater(w, Run(w, s, front), actions[|actions| - 1]);
      LaterComposes(s, Run(w, s, front), Run(w, s, actions));
    }
  }

  /**
   Whatever happens after `step` raised a definite error, its result is never
   committed: only "outcome unknown" leaves the question open.
   */
  lemma DefiniteFailureIsFinal(w: World, s: State, before: seq<Action>, later: seq<Action>, c: CallId)
    requires Classified(w) && Initial(s)
    requires c in Run(w, s, before).calls && DefiniteFailure(Run(w, s, before).calls[c].phase)
    ensures !CommittedBy(Run(w, s, before + later), c)
  {
    Runs.RunComposes(Stepper(w), s, before, later);
    RunIsLater(w, Run(w, s, before), later);
    DurableStepIsSafe(w, s, before + later);
  }

  // ---------------------------------------------- when definite means definite

  /** In no run has a call that raised a definite error committed, then or later. */
  ghost predicate AlwaysFinal(w: World) {
    forall s, actions :: Initial(s) ==> DefiniteFailuresUncommitted(Run(w, s, actions))
  }

  ghost predicate EncodesNothing(w: World) {
    forall v :: w.encode(v).None?
  }

  /**
   Exactly when definite errors are final: every error that can follow an applied
   commit is classified as unknown (or nothing can ever be committed).
   */
  lemma FinalIffClassified(w: World)
    ensures AlwaysFinal(w) <==> Classified(w) || EncodesNothing(w)
  {
    if Classified(w) || EncodesNothing(w) {
      forall s, actions | Initial(s) ensures DefiniteFailuresUncommitted(Run(w, s, actions)) {
        DurableStepIsSafe(w, s, actions);
        if EncodesNothing(w) { NothingIsCommitted(w, s, actions); }
      }
    } else {
      var e :| w.mayFollow(e) && !OutcomeIsUnknown(e);
      var v :| w.encode(v).Some?;
      var s, actions := UnclassifiedErrorLies(w, e, v);
    }
  }

  lemma {:induction false} NothingIsCommitted(w: World, s: State, actions: seq<Action>)
    requires EncodesNothing(w) && Initial(s)
    ensures var t := Run(w, s, actions); t.requests == map[] && t.commits == [] && forall c :: c in t.calls ==> !t.calls[c].phase.Committing?
    decreases |actions|
  {
    if actions != [] {
      var front := actions[..|actions| - 1];
      NothingIsCommitted(w, s, front);
      NothingToCommit(w, Run(w, s, front), actions[|actions| - 1]);
    }
  }

  lemma NothingToCommit(w: World, s: State, a: Action)
    requires EncodesNothing(w) && s.requests == map[] && s.commits == []
    requires forall c :: c in s.calls ==> !s.calls[c].phase.Committing?
    ensures var t := Step(w, s, a); t.requests == map[] && t.commits == [] && forall c :: c in t.calls ==> !t.calls[c].phase.Committing?
  {
    if a.Progress? && a.c in s.calls {
      assert !NextPhase(w, s, a.c, a.event).Committing?;
    }
  }

  /** A record that a first call can claim, and the state in which nobody has called yet. */
  function FreshRecord(): Record { Record("order-1", "p", [1], 1, "running", "new", map[]) }

  /** An error that is called definite and yet can follow an apply: the call raises it and has committed. */
  lemma UnclassifiedErrorLies(w: World, e: CommitError, v: Value) returns (s: State, actions: seq<Action>)
    requires w.mayFollow(e) && !OutcomeIsUnknown(e) && w.encode(v).Some?
    ensures Initial(s) && !DefiniteFailuresUncommitted(Run(w, s, actions))
  {
    var rec := FreshRecord();
    var job := ClaimOf(rec);
    s := Quiet(rec, []);
    var first := [Begin(0, job, "charge", "charged"), HandlePreflight(0), Progress(0, SeePreflight)];
    var second := [Progress(0, FinishClosure(v, Sent)), HandleCommit(0, [2], 0), Progress(0, SeeCommitError(e))];
    actions := first + second;
    Runs.RunComposes(Stepper(w), s, first, second);
    RunOfThree(w, s, first[0], first[1], first[2]);
    PreflightAlone(w, s, 0, job, "charge", "charged");
    var u := Preflighted(s, 0, job, "charge", "charged");
    RunOfThree(w, u, second[0], second[1], second[2]);
    CommitThenError(w, u, v, e);
  }

  lemma CommitThenError(w: World, u: State, v: Value, e: CommitError)
    requires w.mayFollow(e) && !OutcomeIsUnknown(e) && w.encode(v).Some?
    requires 0 in u.calls && u.calls[0].phase.Closure? && 0 !in u.requests && 0 !in u.replies
    requires u.calls[0].job == ClaimOf(u.rec) && u.rec.state == "running"
    ensures var t := Step(w, Step(w, Step(w, u, Progress(0, FinishClosure(v, Sent))), HandleCommit(0, [2], 0)),
                          Progress(0, SeeCommitError(e)));
            0 in t.calls && DefiniteFailure(t.calls[0].phase) && CommittedBy(t, 0)
  {
    var u1 := Step(w, u, Progress(0, FinishClosure(v, Sent)));
    assert u1.calls[0].phase == Committing(w.encode(v).value) && CommitAccepted(u1.rec, u1.requests[0]);
    var u2 := Step(w, u1, HandleCommit(0, [2], 0));
    assert u2.commits[|u1.commits|].caller == 0;
    var t := Step(w, u2, Progress(0, SeeCommitError(e)));
    assert t.commits == u2.commits && t.calls[0].phase == RaisedBy(e);
  }

  /**
   The errors that a deployment gives once it has a commit in hand: a broken
   connection, a timeout on either side, or an HTTP answer from a server or
   gateway that failed while working on it and does not vouch for a retry.
   */
  predicate AfterApply(e: CommitError) {
    match e
    case UnknownOutcomeError => true
    case OtherException => true
    case FerricFailure => false
    case LocalException => false
    case HttpFailure(status, code, safe) =>
      || status == 408 || code == "request_timeout"
      || (!safe && code !in REJECTED_CODES && (status >= 500 || status in {409, 425, 429}))
  }

  /** In such a deployment a definite error of `step` is final. */
  lemma DeploymentIsClassified(w: World)
    requires forall e :: w.mayFollow(e) ==> AfterApply(e)
    ensures Classified(w) && AlwaysFinal(w)
  {
    forall e | w.mayFollow(e) ensures OutcomeIsUnknown(e) { AfterApplyIsUnknown(e); }
    FinalIffClassified(w);
  }

  /** How the server says that its fence refused a commit. */
  predicate IsRefusal(e: CommitError) {
    match e
    case FerricFailure => true
    case HttpFailure(status, code, _) =>
      status in {400, 404, 409, 422} && code in {"stale_lease", "wrong_state", "flow_not_found", "conflict"}
    case _ => false
  }

  /** A refused commit ends the call with a definite error, so that the caller may act on it. */
  lemma RefusalIsDefinite(w: World, s: State, c: CallId, e: CommitError)
    requires c in s.calls && s.calls[c].phase.Committing? && c in s.replies && s.replies[c].Rejected? && IsRefusal(e)
    ensures var t := Step(w, s, Progress(c, SeeCommitError(e))); c in t.calls && DefiniteFailure(t.calls[c].phase)
  {
    RefusalIsKnown(e);
  }

  lemma RefusalIsKnown(e: CommitError)
    requires IsRefusal(e)
    ensures !OutcomeIsUnknown(e) && !AfterApply(e)
  {
  }

  lemma AfterApplyIsUnknown(e: CommitError)
    requires AfterApply(e)
    ensures OutcomeIsUnknown(e)
  {
  }

  /** Once a result is committed under a name, every return under that name, then or later, carries it. */
  lemma CommittedResultIsPermanent(w: World, s: State, before: seq<Action>, later: seq<Action>, i: nat, c: CallId)
    requires Initial(s)
    requires i < |Run(w, s, before).commits|
    requires var t := Run(w, s, before + later);
             c in t.calls && t.calls[c].phase.Returned?
             && t.calls[c].name == Run(w, s, before).commits[i].name
    ensures Run(w, s, before + later).calls[c].phase.result
            == w.decode(Run(w, s, before).commits[i].value)
  {
    var s1 := Run(w, s, before);
    var t := Run(w, s, before + later);
    Runs.RunComposes(Stepper(w), s, before, later);
    RunIsLater(w, s1, later);
    DurableStepIsSafe(w, s, before + later);
    var j :| 0 <= j < |t.commits| && t.commits[j].name == t.calls[c].name
             && t.calls[c].phase.result == w.decode(t.commits[j].value);
    assert t.commits[i] == s1.commits[i];
    assert i == j;
  }

  // --------------------------------------- calls that nobody interrupts

  lemma RunOfThree(w: World, s: State, a: Action, b: Action, c: Action)
    ensures Run(w, s, [a, b, c]) == Step(w, Step(w, Step(w, s, a), b), c)
  {
    Runs.RunStartsWith(Stepper(w), s, a, [b, c]);
    assert [a, b, c] == [a] + [b, c] && [b, c] == [b] + [c];
    Runs.RunStartsWith(Stepper(w), Step(w, s, a), b, [c]);
    Runs.RunOfOne(Stepper(w), Step(w, Step(w, s, a), b), c);
  }

  lemma RunOfFour(w: World, s: State, a: Action, b: Action, c: Action, d: Action)
    ensures Run(w, s, [a, b, c, d]) == Step(w, Step(w, Step(w, Step(w, s, a), b), c), d)
  {
    Runs.RunStartsWith(Stepper(w), s, a, [b, c, d]);
    assert [a, b, c, d] == [a] + [b, c, d] && [b, c, d] == [b] + [c, d] && [c, d] == [c] + [d];
    Runs.RunStartsWith(Stepper(w), Step(w, s, a), b, [c, d]);
    Runs.RunStartsWith(Stepper(w), Step(w, Step(w, s, a), b), c, [d]);
    Runs.RunOfOne(Stepper(w), Step(w, Step(w, Step(w, s, a), b), c), d);
  }

  /** The state after an undisturbed preflight of a new call. */
  function Preflighted(s: State, c: CallId, job: Job, name: string, toState: string): State {
    var reply := if HoldsLease(s.rec, job) then Extended(s.rec, |s.commits|) else Stale;
    var call := Call(job, name, toState, Preflight);
    var p := AfterPreflight(call, reply);
    s.(calls := s.calls[c := call.(phase := p)],
       preflights := s.preflights[c := reply],
       runs := if p.Closure? then s.runs + [ClosureRun(c, name, p.at)] else s.runs)
  }

  predicate NewCall(s: State, c: CallId) {
    c !in s.calls && c !in s.preflights && c !in s.requests && c !in s.replies
  }

  lemma PreflightAlone(w: World, s: State, c: CallId, job: Job, name: string, toState: string)
    requires NewCall(s, c) && ValidJob(job, toState)
    ensures Step(w, Step(w, Step(w, s, Begin(c, job, name, toState)), HandlePreflight(c)),
                 Progress(c, SeePreflight))
            == Preflighted(s, c, job, name, toState)
  {
    var s1 := Step(w, s, Begin(c, job, name, toState));
    var s2 := Step(w, s1, HandlePreflight(c));
    var p := NextPhase(w, s2, c, SeePreflight);
    assert p == AfterPreflight(s1.calls[c], s2.preflights[c]);
    assert s2.calls[c := s2.calls[c].(phase := p)] == s.calls[c := Call(job, name, toState, p)];
  }

  /** The undisturbed replay of call `c`: begin, preflight, read the journalled value. */
  function ReplayRun(w: World, s: State, c: CallId, job: Job, name: string, toState: string): State {
    Run(w, s, [Begin(c, job, name, toState), HandlePreflight(c), Progress(c, SeePreflight),
                   Progress(c, ReadValue(true))])
  }

  lemma ReplayRunIs(w: World, s: State, c: CallId, job: Job, name: string, toState: string)
    requires NewCall(s, c) && ValidJob(job, toState)
    ensures ReplayRun(w, s, c, job, name, toState)
            == Step(w, Preflighted(s, c, job, name, toState), Progress(c, ReadValue(true)))
  {
    RunOfFour(w, s, Begin(c, job, name, toState), HandlePreflight(c), Progress(c, SeePreflight),
              Progress(c, ReadValue(true)));
    PreflightAlone(w, s, c, job, name, toState);
  }

  /**
   A current claim whose step is already committed gets the committed result
   exactly when the record still sits in the step's target state; otherwise the
   call raises.  Either way the closure does not run and nothing changes.
   */
  lemma ReplayReturnsIffInTargetState(w: World, s: State, c: CallId, job: Job, name: string, toState: string)
    requires Inv(w, s) && c !in s.calls
    requires ValidJob(job, toState) && HoldsLease(s.rec, job) && job.runState == s.rec.runState
    requires name in s.rec.refs
    ensures var t := ReplayRun(w, s, c, job, name, toState);
      && t.rec == s.rec && t.commits == s.commits && t.runs == s.runs
      && c in t.calls && t.calls[c].phase ==
           if s.rec.runState == toState
           then Returned(ClaimOf(s.rec), w.decode(s.commits[s.rec.refs[name]].value))
           else Raised(WrongTargetState)
  {
    assert NewCall(s, c);
    ReplayRunIs(w, s, c, job, name, toState);
    var ref := s.rec.refs[name];
    assert ref < |s.commits|;
    var u := Preflighted(s, c, job, name, toState);
    assert u.calls[c].phase == if s.rec.runState == toState then Fetching(s.rec, ref) else Raised(WrongTargetState);
  }

  /** The record and its journal, changed in place by fenced commands. */
  class FlowServer {
    var rec: Record
    var commits: seq<Commit>

    constructor (rec: Record)
      ensures this.rec == rec && commits == []
    {
      this.rec := rec;
      commits := [];
    }

    method ExtendLease(job: Job) returns (reply: PreflightReply)
      ensures reply == if HoldsLease(rec, job) then Extended(rec, |commits|) else Stale
    {
      if HoldsLease(rec, job) { reply := Extended(rec, |commits|); } else { reply := Stale; }
    }

    method ValueMget(ref: nat) returns (value: Bytes)
      requires ref < |commits|
      ensures value == commits[ref].value
    {
      value := commits[ref].value;
    }

    method StepContinue(c: CallId, q: CommitRequest, lease: Bytes, bump: nat) returns (reply: CommitReply)
      modifies this
      ensures old(CommitAccepted(rec, q)) ==>
        && rec == AfterCommit(old(rec), q, |old(commits)|, lease, bump)
        && commits == old(commits) + [Commit(q.name, q.value, q.toState, c)]
        && reply == Applied(ClaimOf(rec))
      ensures !old(CommitAccepted(rec, q)) ==> rec == old(rec) && commits == old(commits) && reply == Rejected
    {
      if !CommitAccepted(rec, q) { return Rejected; }
      rec := AfterCommit(rec, q, |commits|, lease, bump);
      commits := commits + [Commit(q.name, q.value, q.toState, c)];
      reply := Applied(ClaimOf(rec));
    }
  }

  /** What one uninterrupted call of `step` does to the server, and how it ends. */
  datatype Effect = Effect(rec: Record, commits: seq<Commit>, phase: Phase, closureRan: bool)

  /** `run` is what the closure produces (nothing when it raises); `failure` the error that replaces the commit's answer, if any. */
  function AloneEffect(w: World, rec: Record, commits: seq<Commit>, c: CallId, job: Job, name: string,
                       toState: string, run: Option<Value>, lease: Bytes, bump: nat, failure: Option<CommitError>): Effect
    requires JournalOk(rec.refs, commits)
  {
    var reply := if HoldsLease(rec, job) then Extended(rec, |commits|) else Stale;
    var p := AfterPreflight(Call(job, name, toState, Preflight), reply);
    if p.Fetching? then
      Effect(rec, commits, Returned(ClaimOf(rec), w.decode(commits[p.ref].value)), false)
    else if !p.Closure? then Effect(rec, commits, p, false)
    else if run.None? then Effect(rec, commits, Raised(ClosureRaised), true)
    else
      var r := AfterClosure(w, run.value, Sent);
      if !r.Committing? then Effect(rec, commits, r, true)
      else
        var q := CommitRequest(job, name, toState, r.value);
        var rec' := AfterCommit(rec, q, |commits|, lease, bump);
        Effect(rec', commits + [Commit(name, r.value, toState, c)],
               AfterAnswer(w, job, toState, rec', r.value, failure), true)
  }

  /** How a call ends whose commit was applied. */
  function AfterAnswer(w: World, job: Job, toState: string, rec: Record, value: Bytes, failure: Option<CommitError>): Phase {
    if failure.Some? then RaisedBy(failure.value)
    else if RefreshedClaimOk(job, ClaimOf(rec), toState) then Returned(ClaimOf(rec), w.decode(value))
    else Raised(OutcomeUnknown)
  }

  function Quiet(rec: Record, commits: seq<Commit>): State {
    State(rec, commits, map[], map[], map[], map[], [])
  }

  function ClosureEvent(run: Option<Value>): Event {
    if run.Some? then FinishClosure(run.value, Sent) else FailClosure
  }

  function AnswerEvent(failure: Option<CommitError>): Event {
    if failure.Some? then SeeCommitError(failure.value) else SeeCommit
  }

  /** The rest of an uninterrupted call, after its preflight and a possible replay. */
  function RestOfCall(w: World, s: State, c: CallId, run: Option<Value>, lease: Bytes, bump: nat,
                      failure: Option<CommitError>): State
  {
    Run(w, s, [Progress(c, ClosureEvent(run)), HandleCommit(c, lease, bump), Progress(c, AnswerEvent(failure))])
  }

  function ThreeSteps(w: World, s: State, c: CallId, run: Option<Value>, lease: Bytes, bump: nat,
                      failure: Option<CommitError>): State
  {
    Step(w, Step(w, Step(w, s, Progress(c, ClosureEvent(run))), HandleCommit(c, lease, bump)), Progress(c, AnswerEvent(failure)))
  }

  lemma EndedStepsRest(w: World, s: State, c: CallId, e: Event)
    requires c in s.calls && Ended(s.calls[c].phase)
    ensures Step(w, s, Progress(c, e)) == s
  {
    OutcomeIsKept(w, s, c, e);
    assert s.calls[c := s.calls[c]] == s.calls;
  }

  lemma EndedCallsRest(w: World, s: State, c: CallId, run: Option<Value>, lease: Bytes, bump: nat, failure: Option<CommitError>)
    requires c in s.calls && Ended(s.calls[c].phase) && c !in s.requests
    ensures ThreeSteps(w, s, c, run, lease, bump, failure) == s
  {
    EndedStepsRest(w, s, c, ClosureEvent(run));
    EndedStepsRest(w, s, c, AnswerEvent(failure));
  }

  /** From an accepted commit to its answer. */
  lemma CommitAlone(w: World, u: State, c: CallId, lease: Bytes, bump: nat, failure: Option<CommitError>)
    requires c in u.calls && u.calls[c].phase.Committing? && c in u.requests && c !in u.replies
    requires CommitAccepted(u.rec, u.requests[c]) && (failure.Some? ==> w.mayFollow(failure.value))
    ensures var t := Step(w, Step(w, u, HandleCommit(c, lease, bump)), Progress(c, AnswerEvent(failure)));
            var rec' := AfterCommit(u.rec, u.requests[c], |u.commits|, lease, bump);
            && c in t.calls && t.runs == u.runs && t.rec == rec'
            && t.commits == HandledCommit(u, c, lease, bump).commits
            && t.calls[c].phase == AfterAnswer(w, u.calls[c].job, u.calls[c].toState, rec', u.calls[c].phase.value, failure)
  {
    var u2 := Step(w, u, HandleCommit(c, lease, bump));
    assert u2.replies[c] == Applied(ClaimOf(u2.rec));
  }

  /** From the closure to the end, when the claim is still current and the result can be encoded. */
  lemma ClosureCommits(w: World, u: State, c: CallId, value: Value, lease: Bytes, bump: nat, failure: Option<CommitError>)
    requires c in u.calls && u.calls[c].phase.Closure? && c !in u.requests && c !in u.replies
    requires PreflightMatches(u.calls[c].job, u.rec) && w.encode(value).Some?
    requires failure.Some? ==> w.mayFollow(failure.value)
    ensures var t := ThreeSteps(w, u, c, Some(value), lease, bump, failure);
            var call, bytes := u.calls[c], w.encode(value).value;
            var rec' := AfterCommit(u.rec, CommitRequest(call.job, call.name, call.toState, bytes), |u.commits|, lease, bump);
            && c in t.calls && t.runs == u.runs && t.rec == rec'
            && t.commits == u.commits + [Commit(call.name, bytes, call.toState, c)]
            && t.calls[c].phase == AfterAnswer(w, call.job, call.toState, rec', bytes, failure)
  {
    CommitAlone(w, Step(w, u, Progress(c, ClosureEvent(Some(value)))), c, lease, bump, failure);
  }

  /** The closure raised, or its result cannot be encoded: nothing is sent. */
  lemma ClosureFails(w: World, u: State, c: CallId, run: Option<Value>, lease: Bytes, bump: nat, failure: Option<CommitError>)
    requires c in u.calls && u.calls[c].phase.Closure? && c !in u.requests
    requires run.Some? ==> w.encode(run.value).None?
    ensures var t := ThreeSteps(w, u, c, run, lease, bump, failure);
            && c in t.calls && t.runs == u.runs && t.rec == u.rec && t.commits == u.commits
            && t.calls[c].phase == Raised(if run.Some? then EncodeFailed else ClosureRaised)
  {
    var u1 := Step(w, u, Progress(c, ClosureEvent(run)));
    EndedStepsRest(w, u1, c, AnswerEvent(failure));
  }

  /** What the machine has done agrees with the sequential effect. */
  predicate Agrees(t: State, c: CallId, e: Effect) {
    && c in t.calls && t.calls[c].phase == e.phase
    && t.rec == e.rec && t.commits == e.commits && (e.closureRan <==> t.runs != [])
  }

  lemma AloneInClosure(w: World, rec: Record, commits: seq<Commit>, c: CallId, job: Job, name: string,
                       toState: string, run: Option<Value>, lease: Bytes, bump: nat, failure: Option<CommitError>)
    requires JournalOk(rec.refs, commits) && ValidJob(job, toState) && (failure.Some? ==> w.mayFollow(failure.value))
    requires Preflighted(Quiet(rec, commits), c, job, name, toState).calls[c].phase.Closure?
    ensures Agrees(ThreeSteps(w, Preflighted(Quiet(rec, commits), c, job, name, toState), c, run, lease, bump, failure), c,
                   AloneEffect(w, rec, commits, c, job, name, toState, run, lease, bump, failure))
  {
    var u := Preflighted(Quiet(rec, commits), c, job, name, toState);
    if run.Some? && w.encode(run.value).Some? {
      ClosureCommits(w, u, c, run.value, lease, bump, failure);
    } else {
      ClosureFails(w, u, c, run, lease, bump, failure);
    }
  }

  lemma AloneReplays(w: World, rec: Record, commits: seq<Commit>, c: CallId, job: Job, name: string,
                     toState: string, run: Option<Value>, lease: Bytes, bump: nat, failure: Option<CommitError>)
    requires JournalOk(rec.refs, commits) && ValidJob(job, toState)
    requires !Preflighted(Quiet(rec, commits), c, job, name, toState).calls[c].phase.Closure?
    ensures var v := Step(w, Preflighted(Quiet(rec, commits), c, job, name, toState), Progress(c, ReadValue(true)));
            c in v.calls && Ended(v.calls[c].phase) && c !in v.requests
            && Agrees(v, c, AloneEffect(w, rec, commits, c, job, name, toState, run, lease, bump, failure))
  {
  }

  /** Running a call by itself is one of the machine's runs: these seven actions. */
  lemma AloneIsARun(w: World, rec: Record, commits: seq<Commit>, c: CallId, job: Job, name: string,
                    toState: string, run: Option<Value>, lease: Bytes, bump: nat, failure: Option<CommitError>)
    requires JournalOk(rec.refs, commits) && ValidJob(job, toState) && (failure.Some? ==> w.mayFollow(failure.value))
    ensures Agrees(RestOfCall(w, ReplayRun(w, Quiet(rec, commits), c, job, name, toState), c, run, lease, bump, failure), c,
                   AloneEffect(w, rec, commits, c, job, name, toState, run, lease, bump, failure))
  {
    var s := Quiet(rec, commits);
    ReplayRunIs(w, s, c, job, name, toState);
    var u := Preflighted(s, c, job, name, toState);
    var v := Step(w, u, Progress(c, ReadValue(true)));
    RunOfThree(w, v, Progress(c, ClosureEvent(run)), HandleCommit(c, lease, bump), Progress(c, AnswerEvent(failure)));
    if u.calls[c].phase.Closure? {
      ReadingChangesNothing(w, u, c);
      AloneInClosure(w, rec, commits, c, job, name, toState, run, lease, bump, failure);
    } else {
      AloneReplays(w, rec, commits, c, job, name, toState, run, lease, bump, failure);
      EndedCallsRest(w, v, c, run, lease, bump, failure);
    }
  }

  lemma ReadingChangesNothing(w: World, u: State, c: CallId)
    requires c in u.calls && u.calls[c].phase.Closure?
    ensures Step(w, u, Progress(c, ReadValue(true))) == u
  {
    assert u.calls[c := u.calls[c]] == u.calls;
  }

  /**
   What the caller of an uncommitted step gets, in the record's own terms: with a
   current claim, a closure that succeeds and no error, the call commits, and it
   returns the renewed claim and the result if and only if the server issued a
   lease that is not empty and not the old one; else the outcome is unknown.
   */
  lemma FirstCallReturnsIff(w: World, rec: Record, commits: seq<Commit>, c: CallId, job: Job, name: string, toState: string,
                            v: Value, lease: Bytes, bump: nat)
    requires JournalOk(rec.refs, commits) && name !in rec.refs && w.encode(v).Some?
    requires rec.id != "" && rec.lease != [] && rec.fencing > 0 && rec.state == "running" && rec.runState != "" && toState != ""
    requires job.id == rec.id && job.partition == rec.partition && job.lease == rec.lease && job.fencing == rec.fencing
    requires job.runState == rec.runState && (job.state == "" || job.state == "running")
    ensures var bytes := w.encode(v).value;
            var t := RestOfCall(w, ReplayRun(w, Quiet(rec, commits), c, job, name, toState), c, Some(v), lease, bump, None);
            && c in t.calls
            && t.calls[c].phase ==
                 (if lease != [] && lease != job.lease
                  then Returned(Job(rec.id, rec.partition, lease, rec.fencing + 1 + bump, "running", toState), w.decode(bytes))
                  else Raised(OutcomeUnknown))
            && t.commits == commits + [Commit(name, bytes, toState, c)]
            && t.rec == Record(rec.id, rec.partition, lease, rec.fencing + 1 + bump, "running", toState, rec.refs[name := |commits|])
            && |t.runs| == 1 && t.runs[0].caller == c
  {
    AloneIsARun(w, rec, commits, c, job, name, toState, Some(v), lease, bump, None);
    RunsOnce(w, rec, commits, c, job, name, toState, v, lease, bump);
  }

  lemma RunsOnce(w: World, rec: Record, commits: seq<Commit>, c: CallId, job: Job, name: string, toState: string,
                 v: Value, lease: Bytes, bump: nat)
    requires ValidJob(job, toState) && PreflightMatches(job, rec) && HoldsLease(rec, job) && name !in rec.refs && w.encode(v).Some?
    ensures var t := RestOfCall(w, ReplayRun(w, Quiet(rec, commits), c, job, name, toState), c, Some(v), lease, bump, None);
            |t.runs| == 1 && t.runs[0].caller == c
  {
    var s := Quiet(rec, commits);
    ReplayRunIs(w, s, c, job, name, toState);
    var u := Preflighted(s, c, job, name, toState);
    ReadingChangesNothing(w, u, c);
    RunOfThree(w, u, Progress(c, ClosureEvent(Some(v))), HandleCommit(c, lease, bump), Progress(c, AnswerEvent(None)));
    ClosureCommits(w, u, c, v, lease, bump, None);
  }

  /** A claim that is not current never gets as far as the closure, and changes nothing. */
  lemma StaleClaimRaises(w: World, rec: Record, commits: seq<Commit>, c: CallId, job: Job, name: string, toState: string,
                         run: Option<Value>, lease: Bytes, bump: nat)
    requires JournalOk(rec.refs, commits)
    requires job.id != "" && job.lease != [] && job.fencing > 0 && job.runState != "" && toState != ""
    requires job.state == "" || job.state == "running"
    requires || job.id != rec.id || job.partition != rec.partition || job.lease != rec.lease || job.fencing != rec.fencing
             || job.runState != rec.runState || rec.state != "running"
    ensures var t := RestOfCall(w, ReplayRun(w, Quiet(rec, commits), c, job, name, toState), c, run, lease, bump, None);
            c in t.calls && DefiniteFailure(t.calls[c].phase) && t.rec == rec && t.commits == commits && t.runs == []
  {
    AloneIsARun(w, rec, commits, c, job, name, toState, run, lease, bump, None);
  }

  /** The record of the first call, charged and committed. */
  lemma FirstCallCharges(w: World, v: Value, actions: seq<Action>)
    requires w.encode(v).Some?
    requires actions == [Begin(0, ClaimOf(FreshRecord()), "charge", "charged"), HandlePreflight(0), Progress(0, SeePreflight)]
                        + [Progress(0, FinishClosure(v, Sent)), HandleCommit(0, [2], 0), Progress(0, SeeCommit)]
    ensures var t := Run(w, Quiet(FreshRecord(), []), actions);
            && t.rec == Record("order-1", "p", [2], 2, "running", "charged", map["charge" := 0])
            && t.commits == [Commit("charge", w.encode(v).value, "charged", 0)] && t.calls.Keys == {0}
  {
    var s, job := Quiet(FreshRecord(), []), ClaimOf(FreshRecord());
    var first, second := actions[..3], actions[3..];
    assert actions == first + second;
    assert first == [Begin(0, job, "charge", "charged"), HandlePreflight(0), Progress(0, SeePreflight)];
    assert second == [Progress(0, ClosureEvent(Some(v))), HandleCommit(0, [2], 0), Progress(0, AnswerEvent(None))];
    Runs.RunComposes(Stepper(w), s, first, second);
    RunOfThree(w, s, first[0], first[1], first[2]);
    PreflightAlone(w, s, 0, job, "charge", "charged");
    var u := Preflighted(s, 0, job, "charge", "charged");
    RunOfThree(w, u, second[0], second[1], second[2]);
    ClosureCommits(w, u, 0, v, [2], 0, None);
    var u1 := Step(w, u, second[0]);
    NobodyBegins(w, u, second[0]);
    NobodyBegins(w, u1, second[1]);
    NobodyBegins(w, Step(w, u1, second[1]), second[2]);
  }

  lemma NobodyBegins(w: World, u: State, a: Action)
    requires a.Progress? || a.HandleCommit?
    ensures Step(w, u, a).calls.Keys == u.calls.Keys
  {
  }

  /**
   The documentation promises that a reclaimed workflow with a committed result
   reads it back.  In this run from the start the workflow charges, is moved on to
   "shipped" and reclaimed; the second call's claim is current and the result
   journalled, and it raises.
   */
  lemma ReplayPastTheTargetRaises(w: World, v: Value) returns (s: State, actions: seq<Action>)
    requires w.encode(v).Some?
    ensures Initial(s)
    ensures var t := Run(w, s, actions);
            1 in t.calls && t.calls[1].phase == Raised(WrongTargetState)
            && "charge" in t.rec.refs && HoldsLease(t.rec, t.calls[1].job) && |t.commits| == 1
  {
    s := Quiet(FreshRecord(), []);
    var charge := [Begin(0, ClaimOf(FreshRecord()), "charge", "charged"), HandlePreflight(0), Progress(0, SeePreflight)]
                  + [Progress(0, FinishClosure(v, Sent)), HandleCommit(0, [2], 0), Progress(0, SeeCommit)];
    FirstCallCharges(w, v, charge);
    RunKeepsInv(w, s, charge);
    var charged := Run(w, s, charge);
    var shipped := charged.rec.(runState := "shipped");
    var move := [OtherMutation(shipped), Claim([3], 0)];
    var claimed := MovedOn(w, charged, shipped, move);
    Runs.RunComposes(Stepper(w), s, charge, move);
    RunKeepsInv(w, charged, move);
    var job := ClaimOf(claimed.rec);
    ReplayReturnsIffInTargetState(w, claimed, 1, job, "charge", "charged");
    ReplayRunIs(w, claimed, 1, job, "charge", "charged");
    var again := [Begin(1, job, "charge", "charged"), HandlePreflight(1), Progress(1, SeePreflight), Progress(1, ReadValue(true))];
    Runs.RunComposes(Stepper(w), s, charge + move, again);
    actions := charge + move + again;
    JobIsKept(w, claimed, 1, job, "charge", "charged");
  }

  lemma MovedOn(w: World, s: State, to: Record, move: seq<Action>) returns (t: State)
    requires to == s.rec.(runState := "shipped") && move == [OtherMutation(to), Claim([3], 0)]
    ensures t == Run(w, s, move)
    ensures t == s.(rec := to.(lease := [3], fencing := to.fencing + 1, state := "running"))
  {
    var moved := s.(rec := to);
    t := s.(rec := to.(lease := [3], fencing := to.fencing + 1, state := "running"));
    Runs.RunAlong(Stepper(w), [s, moved, t], move);
  }

  lemma JobIsKept(w: World, s: State, c: CallId, job: Job, name: string, toState: string)
    requires NewCall(s, c) && ValidJob(job, toState)
    ensures var t := ReplayRun(w, s, c, job, name, toState); c in t.calls && t.calls[c].job == job
  {
    ReplayRunIs(w, s, c, job, name, toState);
  }

  /**
   `step` as written, one await after the other, against a server nobody else
   is talking to.
   */
  method StepAlone(w: World, server: FlowServer, c: CallId, job: Job, name: string, toState: string,
                   run: Option<Value>, lease: Bytes, bump: nat, failure: Option<CommitError>)
    returns (outcome: Option<Phase>, closureRan: bool)
    requires JournalOk(server.rec.refs, server.commits)
    modifies server
    ensures outcome.None? <==> || job.id == "" || job.lease == [] || job.fencing <= 0 || job.runState == "" || toState == ""
                               || (job.state != "" && job.state != "running")
    ensures !ValidJob(job, toState) ==>
      outcome == None && !closureRan && server.rec == old(server.rec) && server.commits == old(server.commits)
    ensures ValidJob(job, toState) ==>
      outcome.Some? && Effect(server.rec, server.commits, outcome.value, closureRan)
      == AloneEffect(w, old(server.rec), old(server.commits), c, job, name, toState, run, lease, bump, failure)
    ensures closureRan ==> name !in old(server.rec.refs)
    ensures JournalOk(server.rec.refs, server.commits)
  {
    if !ValidJob(job, toState) { return None, false; }
    var current := server.ExtendLease(job);
    if current.Stale? { return Some(Raised(StaleLease)), false; }
    if !PreflightMatches(job, current.snapshot) { return Some(Raised(PreflightMismatch)), false; }
    if name in current.snapshot.refs {
      if current.snapshot.runState != toState { return Some(Raised(WrongTargetState)), false; }
      var stored := server.ValueMget(current.snapshot.refs[name]);
      return Some(Returned(ClaimOf(current.snapshot), w.decode(stored))), false;
    }
    if run.None? { return Some(Raised(ClosureRaised)), true; }
    var encoded := w.encode(run.value);
    if encoded.None? { return Some(Raised(EncodeFailed)), true; }
    var q := CommitRequest(job, name, toState, encoded.value);
    JournalSurvivesCommit(server.rec.refs, server.commits, Commit(name, encoded.value, toState, c));
    var reply := server.StepContinue(c, q, lease, bump);
    if failure.Some? {
      if OutcomeIsUnknown(failure.value) { return Some(Raised(OutcomeUnknown)), true; }
      return Some(Raised(CommitFailed)), true;
    }
    if !RefreshedClaimOk(job, reply.renewed, toState) { return Some(Raised(OutcomeUnknown)), true; }
    return Some(Returned(reply.renewed, w.decode(encoded.value))), true;
  }
}
