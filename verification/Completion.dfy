/**
 Finishing a handled batch: `_handled_from_results` sorts the handler outcomes,
 `_complete_successes` completes the successes in one call or per result, and
 `_handle_failures` groups the failures by message.

 The reference is per-job completion: every outcome sends one mutation for its
 own job.  The batched form is shown to send the same mutations, in the same
 order for the successes and in the same order within each message for the
 failures.
 */
module Completion {
  import opened Common

  type Job = nat

  /** A handler result.  Two results match when they are one object or have one fingerprint. */
  datatype Value = Value(object: nat, fingerprint: nat)

  datatype Error = Error(object: nat, message: string)

  datatype Outcome = Succeeded(job: Job, value: Value) | Failed(job: Job, error: Error)

  datatype HandledBatch = HandledBatch(
    jobs: seq<Job>,
    firstResult: Value,
    mixed: MixedResults,
    failures: seq<(Job, Error)>)

  datatype MixedResults = Uniform | Mixed(results: seq<(Job, Value)>)

  const PYTHON_NONE := Value(0, 0)

  predicate Matches(reference: Value, v: Value) {
    v == reference || v.fingerprint == reference.fingerprint
  }

  // ------------------------------------------------ reference: one job at a time

  function Successes(outcomes: seq<Outcome>): seq<(Job, Value)> {
    if outcomes == [] then []
    else
      var last := outcomes[|outcomes| - 1];
      Successes(outcomes[..|outcomes| - 1]) + (if last.Succeeded? then [(last.job, last.value)] else [])
  }

  function Failures(outcomes: seq<Outcome>): seq<(Job, Error)> {
    if outcomes == [] then []
    else
      var last := outcomes[|outcomes| - 1];
      Failures(outcomes[..|outcomes| - 1]) + (if last.Failed? then [(last.job, last.error)] else [])
  }

  datatype Kind = Fail | Retry

  datatype Mutation = Complete(job: Job, value: Value) | Settle(kind: Kind, job: Job, error: string)

  /** The mutations for the failures, one each, carrying each job's own message. */
  function PerFailure(kind: Kind, failures: seq<(Job, Error)>): (r: seq<Mutation>)
    ensures |r| == |failures|
  {
    seq(|failures|, i requires 0 <= i < |failures| => Settle(kind, failures[i].0, failures[i].1.message))
  }

  lemma {:induction false} EveryOutcomeIsOneOrTheOther(outcomes: seq<Outcome>)
    ensures |Successes(outcomes)| + |Failures(outcomes)| == |outcomes|
    ensures multiset(JobsIn(Successes(outcomes))) + multiset(JobsIn(Failures(outcomes)))
         == multiset(JobsOf(outcomes))
  {
    if outcomes != [] {
      var front, last := outcomes[..|outcomes| - 1], outcomes[|outcomes| - 1];
      EveryOutcomeIsOneOrTheOther(front);
      assert JobsOf(outcomes) == JobsOf(front) + [last.job];
      if last.Succeeded? {
        assert JobsIn(Successes(outcomes)) == JobsIn(Successes(front)) + [last.job];
        assert Failures(outcomes) == Failures(front);
      } else {
        assert JobsIn(Failures(outcomes)) == JobsIn(Failures(front)) + [last.job];
        assert Successes(outcomes) == Successes(front);
      }
    }
  }

  function JobsOf(outcomes: seq<Outcome>): (r: seq<Job>)
    ensures |r| == |outcomes|
  {
    seq(|outcomes|, i requires 0 <= i < |outcomes| => outcomes[i].job)
  }

  /** The jobs of results or failures, in order. */
  function JobsIn<T>(pairs: seq<(Job, T)>): (r: seq<Job>)
    ensures |r| == |pairs|
  {
    seq(|pairs|, i requires 0 <= i < |pairs| => pairs[i].0)
  }

  function MutatedJobs(mutations: seq<Mutation>): (r: seq<Job>)
    ensures |r| == |mutations|
  {
    seq(|mutations|, i requires 0 <= i < |mutations| => mutations[i].job)
  }

  // ------------------------------------------------ sorting the outcomes

  /** The values put down for the successful jobs match the jobs' own results. */
  predicate Faithful(results: seq<(Job, Value)>, own: seq<(Job, Value)>) {
    && |results| == |own|
    && forall i | 0 <= i < |own| :: results[i].0 == own[i].0 && Matches(results[i].1, own[i].1)
  }

  predicate AllMatch(reference: Value, own: seq<(Job, Value)>) {
    forall i | 0 <= i < |own| :: Matches(reference, own[i].1)
  }

  lemma AllMatchOneMore(reference: Value, own: seq<(Job, Value)>, more: (Job, Value))
    ensures AllMatch(reference, own + [more]) <==> AllMatch(reference, own) && Matches(reference, more.1)
  {
    var all := own + [more];
    if AllMatch(reference, all) {
      forall i | 0 <= i < |own| ensures Matches(reference, own[i].1) {
        assert all[i] == own[i];
      }
      assert all[|own|] == more;
    }
  }

  predicate Represents(h: HandledBatch, outcomes: seq<Outcome>) {
    var own := Successes(outcomes);
    && h.jobs == JobsIn(own)
    && h.failures == Failures(outcomes)
    && (h.mixed.Uniform? ==> AllMatch(h.firstResult, own))
    && (h.mixed.Mixed? ==> Faithful(h.mixed.results, own))
  }

  /** `_handled_from_results`: the uniform path is taken exactly when all results match the first one. */
  method HandledFromResults(outcomes: seq<Outcome>) returns (h: HandledBatch)
    ensures Represents(h, outcomes)
    ensures var own := Successes(outcomes);
            && h.firstResult == (if own == [] then PYTHON_NONE else own[0].1)
            && (h.mixed.Uniform? <==> own == [] || AllMatch(own[0].1, own))
  {
    var jobs, failures, firstResult, firstSet, mixed := [], [], PYTHON_NONE, false, Uniform;
    for n := 0 to |outcomes|
      invariant failures == Failures(outcomes[..n])
      invariant jobs == JobsIn(Successes(outcomes[..n]))
      invariant firstSet <==> jobs != []
      invariant firstResult == if firstSet then Successes(outcomes[..n])[0].1 else PYTHON_NONE
      invariant mixed.Uniform? <==> AllMatch(firstResult, Successes(outcomes[..n]))
      invariant mixed.Mixed? ==> firstSet && Faithful(mixed.results, Successes(outcomes[..n]))
    {
      assert outcomes[..n + 1][..n] == outcomes[..n];
      match outcomes[n]
      case Failed(job, error) =>
        assert Successes(outcomes[..n + 1]) == Successes(outcomes[..n]);
        failures := failures + [(job, error)];
      case Succeeded(job, value) =>
        ghost var own := Successes(outcomes[..n]);
        assert Successes(outcomes[..n + 1]) == own + [(job, value)];
        if !firstSet {
          firstResult, firstSet := value, true;
          jobs := jobs + [job];
          AllMatchOneMore(firstResult, own, (job, value));
          continue;
        }
        if mixed.Uniform? && !Matches(firstResult, value) {
          mixed := Mixed(seq(|jobs|, i requires 0 <= i < |jobs| => (jobs[i], firstResult)));
        }
        jobs := jobs + [job];
        AllMatchOneMore(firstResult, own, (job, value));
        if mixed.Mixed? {
          mixed := Mixed(mixed.results + [(job, value)]);
        }
    }
    assert outcomes[..|outcomes|] == outcomes;
    h := HandledBatch(jobs, firstResult, mixed, failures);
  }

  /** What a batch handler did: one value for all the jobs, or one error. */
  datatype BatchOutcome = Returned(value: Value) | Threw(error: Error)

  function ForAllJobs(jobs: seq<Job>, outcome: BatchOutcome): seq<Outcome> {
    seq(|jobs|, i requires 0 <= i < |jobs| =>
      if outcome.Returned? then Succeeded(jobs[i], outcome.value) else Failed(jobs[i], outcome.error))
  }

  /** `_run_batch_handler`: the whole batch succeeds with one value or fails with one error. */
  method HandledByBatchHandler(jobs: seq<Job>, outcome: BatchOutcome) returns (h: HandledBatch)
    ensures Represents(h, ForAllJobs(jobs, outcome)) && h.mixed.Uniform?
  {
    OneForAll(jobs, outcome);
    if outcome.Threw? {
      return HandledBatch([], PYTHON_NONE, Uniform, seq(|jobs|, i requires 0 <= i < |jobs| => (jobs[i], outcome.error)));
    }
    return HandledBatch(jobs, outcome.value, Uniform, []);
  }

  lemma {:induction false} OneForAll(jobs: seq<Job>, outcome: BatchOutcome)
    ensures var outcomes := ForAllJobs(jobs, outcome);
            && (outcome.Returned? ==> JobsIn(Successes(outcomes)) == jobs && Failures(outcomes) == []
                                      && forall i | 0 <= i < |Successes(outcomes)| :: Successes(outcomes)[i].1 == outcome.value)
            && (outcome.Threw? ==> Successes(outcomes) == []
                                   && Failures(outcomes) == seq(|jobs|, i requires 0 <= i < |jobs| => (jobs[i], outcome.error)))
  {
    if jobs != [] {
      var outcomes, front := ForAllJobs(jobs, outcome), jobs[..|jobs| - 1];
      OneForAll(front, outcome);
      assert outcomes[..|outcomes| - 1] == ForAllJobs(front, outcome);
    }
  }

  // ------------------------------------------------ grouping by message

  datatype Group = Group(message: string, jobs: seq<Job>)

  /** `groups.setdefault(message, []).append(job)` on an insertion-ordered dictionary. */
  function Added(groups: seq<Group>, message: string, job: Job): seq<Group> {
    if groups == [] then [Group(message, [job])]
    else if groups[0].message == message then [Group(message, groups[0].jobs + [job])] + groups[1..]
    else [groups[0]] + Added(groups[1..], message, job)
  }

  predicate KeysDistinct(groups: seq<Group>) {
    forall i, j | 0 <= i < j < |groups| :: groups[i].message != groups[j].message
  }

  /** The mutations that a list of groups stands for, in sending order. */
  function Flat(kind: Kind, groups: seq<Group>): seq<Mutation> {
    if groups == [] then [] else OfGroup(kind, groups[0]) + Flat(kind, groups[1..])
  }

  function OfGroup(kind: Kind, g: Group): (r: seq<Mutation>)
    ensures |r| == |g.jobs|
  {
    seq(|g.jobs|, i requires 0 <= i < |g.jobs| => Settle(kind, g.jobs[i], g.message))
  }

  /** The mutations carrying one message, in order. */
  function Carrying(mutations: seq<Mutation>, message: string): seq<Mutation> {
    if mutations == [] then []
    else
      var last := mutations[|mutations| - 1];
      Carrying(mutations[..|mutations| - 1], message)
      + (if last.Settle? && last.error == message then [last] else [])
  }

  lemma {:induction false} CarryingOfConcat(a: seq<Mutation>, b: seq<Mutation>, message: string)
    ensures Carrying(a + b, message) == Carrying(a, message) + Carrying(b, message)
  {
    if b == [] {
      assert a + b == a;
    } else {
      assert (a + b)[..|a + b| - 1] == a + b[..|b| - 1];
      CarryingOfConcat(a, b[..|b| - 1], message);
    }
  }

  lemma CarryingOneMore(mutations: seq<Mutation>, more: Mutation, message: string)
    requires more.Settle?
    ensures Carrying(mutations + [more], message)
         == if more.error == message then Carrying(mutations, message) + [more] else Carrying(mutations, message)
  {
    assert (mutations + [more])[..|mutations|] == mutations;
  }

  lemma GroupGrows(kind: Kind, message: string, jobs: seq<Job>, job: Job)
    ensures OfGroup(kind, Group(message, jobs + [job])) == OfGroup(kind, Group(message, jobs)) + [Settle(kind, job, message)]
  {
  }

  lemma {:induction false} CarryingOfGroup(kind: Kind, g: Group, message: string)
    ensures Carrying(OfGroup(kind, g), message) == if g.message == message then OfGroup(kind, g) else []
    decreases |g.jobs|
  {
    if g.jobs != [] {
      var front, last := g.jobs[..|g.jobs| - 1], g.jobs[|g.jobs| - 1];
      assert g == Group(g.message, front + [last]);
      CarryingOfGroup(kind, Group(g.message, front), message);
      GroupGrows(kind, g.message, front, last);
      CarryingOneMore(OfGroup(kind, Group(g.message, front)), Settle(kind, last, g.message), message);
    }
  }

  /** A message that heads no group is carried by nothing. */
  lemma {:induction false} CarryingNothing(kind: Kind, groups: seq<Group>, message: string)
    requires forall i | 0 <= i < |groups| :: groups[i].message != message
    ensures Carrying(Flat(kind, groups), message) == []
  {
    if groups != [] {
      CarryingOfConcat(OfGroup(kind, groups[0]), Flat(kind, groups[1..]), message);
      CarryingOfGroup(kind, groups[0], message);
      CarryingNothing(kind, groups[1..], message);
    }
  }

  lemma {:induction false} AddedKeepsKeys(groups: seq<Group>, message: string, job: Job)
    requires KeysDistinct(groups)
    ensures KeysDistinct(Added(groups, message, job))
    ensures forall g :: g in Added(groups, message, job) ==> g.message == message || exists h :: h in groups && h.message == g.message
  {
    if groups != [] && groups[0].message != message {
      AddedKeepsKeys(groups[1..], message, job);
      var rest := Added(groups[1..], message, job);
      forall j | 0 <= j < |rest| ensures rest[j].message != groups[0].message {
        assert rest[j] in rest;
      }
    }
  }

  lemma CarryingOfHead(kind: Kind, groups: seq<Group>, m: string)
    requires groups != []
    ensures Carrying(Flat(kind, groups), m)
         == (if groups[0].message == m then OfGroup(kind, groups[0]) else []) + Carrying(Flat(kind, groups[1..]), m)
  {
    CarryingOfConcat(OfGroup(kind, groups[0]), Flat(kind, groups[1..]), m);
    CarryingOfGroup(kind, groups[0], m);
  }

  function IfEqual(m: string, message: string, x: Mutation): seq<Mutation> {
    if m == message then [x] else []
  }

  lemma FirstCarries(kind: Kind, message: string, job: Job, m: string)
    ensures Carrying(Flat(kind, [Group(message, [job])]), m) == IfEqual(m, message, Settle(kind, job, message))
  {
    var groups := [Group(message, [job])];
    CarryingOfHead(kind, groups, m);
    assert OfGroup(kind, groups[0]) == [Settle(kind, job, message)] && groups[1..] == [];
  }

  /** The only group that a message heads is all that carries it. */
  lemma CarriedByHead(kind: Kind, groups: seq<Group>)
    requires KeysDistinct(groups) && groups != []
    ensures Carrying(Flat(kind, groups), groups[0].message) == OfGroup(kind, groups[0])
  {
    CarryingOfHead(kind, groups, groups[0].message);
    CarryingNothing(kind, groups[1..], groups[0].message);
    assert OfGroup(kind, groups[0]) + [] == OfGroup(kind, groups[0]);
  }

  /** Appending to the head group, seen through the message that it heads. */
  lemma AddedToHeadCarries(kind: Kind, groups: seq<Group>, message: string, job: Job)
    requires KeysDistinct(groups) && groups != [] && groups[0].message == message
    ensures Carrying(Flat(kind, Added(groups, message, job)), message)
         == Carrying(Flat(kind, groups), message) + [Settle(kind, job, message)]
  {
    AddedKeepsKeys(groups, message, job);
    CarriedByHead(kind, groups);
    CarriedByHead(kind, Added(groups, message, job));
    GroupGrows(kind, message, groups[0].jobs, job);
  }

  /** And seen through any other message. */
  lemma AddedToHeadHidden(kind: Kind, groups: seq<Group>, message: string, job: Job, m: string)
    requires groups != [] && groups[0].message == message && m != message
    ensures Carrying(Flat(kind, Added(groups, message, job)), m) == Carrying(Flat(kind, groups), m)
  {
    var after := Added(groups, message, job);
    assert after[1..] == groups[1..];
    CarryingOfHead(kind, after, m);
    CarryingOfHead(kind, groups, m);
  }

  lemma {:induction false} AddedCarries(kind: Kind, groups: seq<Group>, message: string, job: Job, m: string)
    requires KeysDistinct(groups)
    ensures Carrying(Flat(kind, Added(groups, message, job)), m)
         == Carrying(Flat(kind, groups), m) + IfEqual(m, message, Settle(kind, job, message))
  {
    if groups == [] {
      FirstCarries(kind, message, job, m);
    } else if groups[0].message == message {
      if m == message {
        AddedToHeadCarries(kind, groups, message, job);
      } else {
        AddedToHeadHidden(kind, groups, message, job, m);
      }
    } else {
      var after, rest := Added(groups, message, job), groups[1..];
      assert after[1..] == Added(rest, message, job);
      AddedCarries(kind, rest, message, job, m);
      HeadAndRest(kind, groups, after, m, IfEqual(m, message, Settle(kind, job, message)));
    }
  }

  lemma HeadAndRest(kind: Kind, groups: seq<Group>, after: seq<Group>, m: string, more: seq<Mutation>)
    requires groups != [] && after != [] && after[0] == groups[0]
    requires Carrying(Flat(kind, after[1..]), m) == Carrying(Flat(kind, groups[1..]), m) + more
    ensures Carrying(Flat(kind, after), m) == Carrying(Flat(kind, groups), m) + more
  {
    CarryingOfHead(kind, after, m);
    CarryingOfHead(kind, groups, m);
    var head := if groups[0].message == m then OfGroup(kind, groups[0]) else [];
    Associative(head, Carrying(Flat(kind, groups[1..]), m), more);
  }

  lemma {:induction false} AddedAddsOne(kind: Kind, groups: seq<Group>, message: string, job: Job)
    ensures |Flat(kind, Added(groups, message, job))| == |Flat(kind, groups)| + 1
  {
    var after := Added(groups, message, job);
    if groups == [] {
      assert after[1..] == [];
    } else if groups[0].message == message {
      assert after[1..] == groups[1..];
    } else {
      assert after[1..] == Added(groups[1..], message, job);
      AddedAddsOne(kind, groups[1..], message, job);
    }
  }

  /** The same mutations, and in the same order among those that carry one message. */
  ghost predicate Regroups(sent: seq<Mutation>, reference: seq<Mutation>) {
    && |sent| == |reference|
    && (forall i | 0 <= i < |sent| :: sent[i].Settle?)
    && forall m :: Carrying(sent, m) == Carrying(reference, m)
  }

  method GroupFailures(failures: seq<(Job, Error)>) returns (groups: seq<Group>)
    ensures KeysDistinct(groups)
    ensures forall kind :: Regroups(Flat(kind, groups), PerFailure(kind, failures))
  {
    groups := [];
    for n := 0 to |failures|
      invariant KeysDistinct(groups)
      invariant forall kind :: Regroups(Flat(kind, groups), PerFailure(kind, failures[..n]))
    {
      var (job, error) := failures[n];
      AddedKeepsKeys(groups, error.message, job);
      forall kind ensures Regroups(Flat(kind, Added(groups, error.message, job)), PerFailure(kind, failures[..n + 1])) {
        RegroupsOneMore(kind, groups, failures, n);
      }
      groups := Added(groups, error.message, job);
    }
    assert failures[..|failures|] == failures;
  }

  lemma {:induction false} FlatSettles(kind: Kind, groups: seq<Group>)
    ensures forall i | 0 <= i < |Flat(kind, groups)| :: Flat(kind, groups)[i].Settle?
  {
    if groups != [] { FlatSettles(kind, groups[1..]); }
  }

  lemma RegroupsOneMore(kind: Kind, groups: seq<Group>, failures: seq<(Job, Error)>, n: nat)
    requires n < |failures| && KeysDistinct(groups)
    requires Regroups(Flat(kind, groups), PerFailure(kind, failures[..n]))
    ensures Regroups(Flat(kind, Added(groups, failures[n].1.message, failures[n].0)), PerFailure(kind, failures[..n + 1]))
  {
    var message, job := failures[n].1.message, failures[n].0;
    var reference := PerFailure(kind, failures[..n + 1]);
    assert reference[..n] == PerFailure(kind, failures[..n]);
    forall m ensures Carrying(Flat(kind, Added(groups, message, job)), m) == Carrying(reference, m) {
      AddedCarries(kind, groups, message, job, m);
    }
    AddedAddsOne(kind, groups, message, job);
    FlatSettles(kind, Added(groups, message, job));
  }

  lemma {:induction false} CountInItsMessage(s: seq<Mutation>, x: Mutation)
    requires x.Settle?
    ensures multiset(s)[x] == multiset(Carrying(s, x.error))[x]
  {
    if s != [] {
      var front := s[..|s| - 1];
      CountInItsMessage(front, x);
      assert s == front + [s[|s| - 1]];
    }
  }

  lemma SettlesOnly(s: seq<Mutation>, x: Mutation)
    requires x.Complete? && forall i | 0 <= i < |s| :: s[i].Settle?
    ensures multiset(s)[x] == 0
  {
    assert x !in s;
  }

  /** Regrouping is a permutation: no failure is dropped, doubled or given another job's message. */
  lemma RegroupingPermutes(sent: seq<Mutation>, reference: seq<Mutation>)
    requires Regroups(sent, reference) && forall i | 0 <= i < |reference| :: reference[i].Settle?
    ensures multiset(sent) == multiset(reference)
  {
    forall x ensures multiset(sent)[x] == multiset(reference)[x] {
      if x.Settle? {
        CountInItsMessage(sent, x);
        CountInItsMessage(reference, x);
      } else {
        SettlesOnly(sent, x);
        SettlesOnly(reference, x);
      }
    }
  }

  // ------------------------------------------------ the client and its replies

  /** What a many-call returns: raised, a single reply for all items, or a list of item replies. */
  datatype Reply = Raised(error: Error) | Single(item: Item) | Items(items: seq<Item>)
  datatype Item = Fine | Refused(error: Error)

  datatype Call =
    | CompleteJobs(jobs: seq<Job>, result: Value)
    | CompleteJobResults(results: seq<(Job, Value)>)
    | CompleteOne(job: Job, result: Value)
    | CompleteAndClaim(jobs: seq<Job>, result: Value)            // the fused command
    | ApplyJobMutations(mutations: seq<Mutation>)
    | SettleMany(kind: Kind, group: Group)

  function Expanded(call: Call): seq<Mutation> {
    match call
    case CompleteJobs(jobs, result) => seq(|jobs|, i requires 0 <= i < |jobs| => Complete(jobs[i], result))
    case CompleteJobResults(results) =>
      seq(|results|, i requires 0 <= i < |results| => Complete(results[i].0, results[i].1))
    case CompleteOne(job, result) => [Complete(job, result)]
    case CompleteAndClaim(jobs, result) => seq(|jobs|, i requires 0 <= i < |jobs| => Complete(jobs[i], result))
    case ApplyJobMutations(mutations) => mutations
    case SettleMany(kind, group) => OfGroup(kind, group)
  }

  const CARDINALITY_ERROR := Error(0, "unexpected item count")

  /** `validate_many_result`: the first item error, or a cardinality mismatch. */
  function FirstError(reply: Reply, expected: nat): (e: seq<Error>)
    ensures |e| <= 1
    ensures e == [] <==> (reply.Single? && (expected == 0 || reply.item.Fine?))
                         || (reply.Items? && |reply.items| == expected && forall i | 0 <= i < expected :: reply.items[i].Fine?)
    ensures e != [] && reply.Raised? ==> e == [reply.error]
    ensures e != [] && reply.Single? ==> reply.item == Refused(e[0])
    ensures e != [] && reply.Items? && |reply.items| != expected ==> e == [CARDINALITY_ERROR]
    ensures e != [] && reply.Items? && |reply.items| == expected ==> RefusedFirst(reply.items, e[0])
  {
    match reply
    case Raised(error) => [error]
    case Single(item) => if expected == 0 || item.Fine? then [] else [item.error]
    case Items(items) => if |items| != expected then [CARDINALITY_ERROR] else FirstItemError(items)
  }

  function FirstItemError(items: seq<Item>): (e: seq<Error>)
    ensures |e| <= 1
    ensures e == [] <==> forall i | 0 <= i < |items| :: items[i].Fine?
    ensures e != [] ==> RefusedFirst(items, e[0])
  {
    if items == [] then []
    else if items[0].Refused? then
      assert items[0] == Refused(items[0].error);
      [items[0].error]
    else
      var e := FirstItemError(items[1..]);
      assert e != [] ==> RefusedFirst(items, e[0]) by {
        if e != [] {
          var k :| 0 <= k < |items[1..]| && items[1..][k] == Refused(e[0]) && forall i | 0 <= i < k :: items[1..][i].Fine?;
          assert items[k + 1] == Refused(e[0]);
          forall i | 0 <= i < k + 1 ensures items[i].Fine? {
            if i > 0 { assert items[i] == items[1..][i - 1]; }
          }
        }
      }
      e
  }

  /** The first item that is not fine was refused with this error. */
  predicate RefusedFirst(items: seq<Item>, error: Error) {
    exists k | 0 <= k < |items| :: items[k] == Refused(error) && forall i | 0 <= i < k :: items[i].Fine?
  }

  /** What the worker takes as an error in a reply: single commands and the fused one have none but a raise. */
  function Troubles(call: Call, reply: Reply): seq<Error> {
    if call.CompleteOne? || call.CompleteAndClaim? then (if reply.Raised? then [reply.error] else [])
    else FirstError(reply, |Expanded(call)|)
  }

  datatype OnError = RaiseErrors | FailJobs | RetryJobs

  datatype Finished = Finished(completed: nat, retried: nat, failed: nat) | Broke(error: Error)

  function KindOf(onError: OnError): Kind {
    if onError.FailJobs? then Fail else Retry
  }

  /** The completions sent match the successes, job by job and in order. */
  predicate CompletesLike(sent: seq<Mutation>, own: seq<(Job, Value)>) {
    && |sent| == |own|
    && forall i | 0 <= i < |own| :: sent[i].Complete? && sent[i].job == own[i].0 && sent[i].value.fingerprint == own[i].1.fingerprint
  }

  /** All mutations of a batch: the successes in order, then the failures up to grouping. */
  ghost predicate SettlesLike(sent: seq<Mutation>, outcomes: seq<Outcome>, kind: Kind) {
    var n := |Successes(outcomes)|;
    && n <= |sent|
    && CompletesLike(sent[..n], Successes(outcomes))
    && Regroups(sent[n..], PerFailure(kind, Failures(outcomes)))
  }

  /** A batch settled like this settles every job of the batch exactly once. */
  lemma EveryJobSettledOnce(sent: seq<Mutation>, outcomes: seq<Outcome>, kind: Kind)
    requires SettlesLike(sent, outcomes, kind)
    ensures |sent| == |outcomes|
    ensures multiset(MutatedJobs(sent)) == multiset(JobsOf(outcomes))
  {
    var own, failures := Successes(outcomes), Failures(outcomes);
    var n := |own|;
    EveryOutcomeIsOneOrTheOther(outcomes);
    RegroupingPermutes(sent[n..], PerFailure(kind, failures));
    SameMutationsSameJobs(sent[n..], PerFailure(kind, failures));
    assert MutatedJobs(PerFailure(kind, failures)) == JobsIn(failures);
    assert MutatedJobs(sent[..n]) == JobsIn(own);
    assert MutatedJobs(sent) == MutatedJobs(sent[..n]) + MutatedJobs(sent[n..]);
  }

  lemma {:induction false} SameMutationsSameJobs(a: seq<Mutation>, b: seq<Mutation>)
    requires multiset(a) == multiset(b)
    ensures multiset(MutatedJobs(a)) == multiset(MutatedJobs(b))
    decreases |a|
  {
    if a == [] {
      assert |multiset(b)| == |b|;
    } else {
      assert a[0] in multiset(b);
      var k :| 0 <= k < |b| && b[k] == a[0];
      assert a == [a[0]] + a[1..];
      TakenOut(b, k);
      assert multiset(a) == multiset(a[1..]) + multiset{a[0]};
      Cancels(multiset(a[1..]), multiset(b[..k] + b[k + 1..]), a[0]);
      assert multiset(a[1..]) == multiset(b[..k] + b[k + 1..]);
      SameMutationsSameJobs(a[1..], b[..k] + b[k + 1..]);
      assert MutatedJobs(a) == [a[0].job] + MutatedJobs(a[1..]);
    }
  }

  lemma TakenOut(b: seq<Mutation>, k: nat)
    requires k < |b|
    ensures multiset(b) == multiset(b[..k] + b[k + 1..]) + multiset{b[k]}
    ensures multiset(MutatedJobs(b)) == multiset(MutatedJobs(b[..k] + b[k + 1..])) + multiset{b[k].job}
  {
    assert b == b[..k] + [b[k]] + b[k + 1..];
    assert MutatedJobs(b) == MutatedJobs(b[..k]) + [b[k].job] + MutatedJobs(b[k + 1..]);
    assert MutatedJobs(b[..k] + b[k + 1..]) == MutatedJobs(b[..k]) + MutatedJobs(b[k + 1..]);
  }

  // ------------------------------------------------ counting what was sent

  function Completions(sent: seq<Mutation>): nat {
    if sent == [] then 0 else Completions(sent[..|sent| - 1]) + (if sent[|sent| - 1].Complete? then 1 else 0)
  }

  function Settlements(kind: Kind, sent: seq<Mutation>): nat {
    if sent == [] then 0
    else Settlements(kind, sent[..|sent| - 1]) + (if sent[|sent| - 1].Settle? && sent[|sent| - 1].kind == kind then 1 else 0)
  }

  lemma {:induction false} CountsAdd(a: seq<Mutation>, b: seq<Mutation>)
    ensures Completions(a + b) == Completions(a) + Completions(b)
    ensures forall kind :: Settlements(kind, a + b) == Settlements(kind, a) + Settlements(kind, b)
    decreases |b|
  {
    if b == [] {
      assert a + b == a;
    } else {
      assert (a + b)[..|a + b| - 1] == a + b[..|b| - 1];
      CountsAdd(a, b[..|b| - 1]);
    }
  }

  lemma {:induction false} CountsOfCompletes(sent: seq<Mutation>)
    requires forall i | 0 <= i < |sent| :: sent[i].Complete?
    ensures Completions(sent) == |sent| && forall kind :: Settlements(kind, sent) == 0
  {
    if sent != [] { CountsOfCompletes(sent[..|sent| - 1]); }
  }

  lemma {:induction false} CountsOfSettles(sent: seq<Mutation>, kind: Kind)
    requires forall i | 0 <= i < |sent| :: sent[i].Settle? && sent[i].kind == kind
    ensures Completions(sent) == 0 && forall k :: Settlements(k, sent) == if k == kind then |sent| else 0
  {
    if sent != [] { CountsOfSettles(sent[..|sent| - 1], kind); }
  }

  lemma RegroupedKinds(sent: seq<Mutation>, kind: Kind, failures: seq<(Job, Error)>)
    requires Regroups(sent, PerFailure(kind, failures))
    ensures forall i | 0 <= i < |sent| :: sent[i].Settle? && sent[i].kind == kind
  {
    RegroupingPermutes(sent, PerFailure(kind, failures));
    forall i | 0 <= i < |sent| ensures sent[i].kind == kind {
      assert sent[i] in multiset(sent);
      assert sent[i] in PerFailure(kind, failures);
    }
  }

  /** What a settled batch adds to the counts of mutations sent. */
  lemma CountsOfBatch(sent: seq<Mutation>, outcomes: seq<Outcome>, kind: Kind)
    requires SettlesLike(sent, outcomes, kind)
    ensures Completions(sent) == |Successes(outcomes)|
    ensures forall k :: Settlements(k, sent) == if k == kind then |Failures(outcomes)| else 0
  {
    var n := |Successes(outcomes)|;
    CountsOfCompletes(sent[..n]);
    RegroupedKinds(sent[n..], kind, Failures(outcomes));
    CountsOfSettles(sent[n..], kind);
    CountsAdd(sent[..n], sent[n..]);
    assert sent == sent[..n] + sent[n..];
  }

  /** The jobs that mutations settle, each as often as it is settled. */
  function SettledJobs(sent: seq<Mutation>): multiset<Job> {
    if sent == [] then multiset{} else SettledJobs(sent[..|sent| - 1]) + multiset{sent[|sent| - 1].job}
  }

  lemma {:induction false} SettledJobsAre(sent: seq<Mutation>)
    ensures SettledJobs(sent) == multiset(MutatedJobs(sent))
  {
    if sent != [] {
      var front, last := sent[..|sent| - 1], sent[|sent| - 1];
      SettledJobsAre(front);
      assert MutatedJobs(sent) == MutatedJobs(front) + [last.job];
    }
  }

  lemma {:induction false} SettledJobsAdd(a: seq<Mutation>, b: seq<Mutation>)
    ensures SettledJobs(a + b) == SettledJobs(a) + SettledJobs(b)
    decreases |b|
  {
    if b == [] {
      assert a + b == a;
    } else {
      assert (a + b)[..|a + b| - 1] == a + b[..|b| - 1];
      SettledJobsAdd(a, b[..|b| - 1]);
    }
  }

  /** The mutations settle exactly these jobs, each once, and the counts are theirs. */
  ghost predicate Tallies(sent: seq<Mutation>, jobs: seq<Job>, done: Finished) {
    && done.Finished?
    && SettledJobs(sent) == multiset(jobs)
    && Completions(sent) == done.completed && Settlements(Retry, sent) == done.retried && Settlements(Fail, sent) == done.failed
    && done.completed + done.retried + done.failed == |jobs|
  }

  /** A batch settled as per-job completion would is counted by its mutations. */
  lemma SettledBatchTallies(sent: seq<Mutation>, outcomes: seq<Outcome>, onError: OnError, done: Finished)
    requires SettlesLike(sent, outcomes, KindOf(onError)) && done.Finished? && done.completed == |Successes(outcomes)|
    requires done.retried == (if onError.FailJobs? then 0 else |Failures(outcomes)|)
    requires done.failed == (if onError.FailJobs? then |Failures(outcomes)| else 0)
    ensures Tallies(sent, JobsOf(outcomes), done)
  {
    CountsOfBatch(sent, outcomes, KindOf(onError));
    EveryJobSettledOnce(sent, outcomes, KindOf(onError));
    SettledJobsAre(sent);
    EveryOutcomeIsOneOrTheOther(outcomes);
  }

  lemma NothingTallies(sent: seq<Mutation>)
    requires |sent| == 0
    ensures Tallies(sent, [], Finished(0, 0, 0))
  {
  }

  /** Tallies add up. */
  lemma TalliesAdd(a: seq<Mutation>, b: seq<Mutation>, jobs: seq<Job>, more: seq<Job>, x: Finished, y: Finished)
    requires Tallies(a, jobs, x) && Tallies(b, more, y)
    ensures Tallies(a + b, jobs + more, Finished(x.completed + y.completed, x.retried + y.retried, x.failed + y.failed))
  {
    CountsAdd(a, b);
    SettledJobsAdd(a, b);
  }

  /** A uniform batch completed by one command is settled as per-job completion would. */
  lemma UniformSettles(h: HandledBatch, outcomes: seq<Outcome>, kind: Kind)
    requires Represents(h, outcomes) && h.mixed.Uniform? && h.failures == []
    ensures SettlesLike(Expanded(CompleteAndClaim(h.jobs, h.firstResult)), outcomes, kind)
  {
    var sent, n := Expanded(CompleteAndClaim(h.jobs, h.firstResult)), |Successes(outcomes)|;
    assert sent[..n] == sent && sent[n..] == [] && PerFailure(kind, Failures(outcomes)) == [];
  }

  /** A message's mutations are sent together or not at all. */
  ghost predicate WholeGroups(sent: seq<Mutation>, reference: seq<Mutation>) {
    forall m :: Carrying(sent, m) == [] || Carrying(sent, m) == Carrying(reference, m)
  }

  lemma {:induction false} SomeGroupsAreWhole(kind: Kind, groups: seq<Group>, k: nat, m: string)
    requires KeysDistinct(groups) && k <= |groups|
    ensures Carrying(Flat(kind, groups[..k]), m) == [] || Carrying(Flat(kind, groups[..k]), m) == Carrying(Flat(kind, groups), m)
  {
    FlatOfConcat(kind, groups[..k], groups[k..]);
    assert groups == groups[..k] + groups[k..];
    CarryingOfConcat(Flat(kind, groups[..k]), Flat(kind, groups[k..]), m);
    if exists i :: 0 <= i < k && groups[i].message == m {
      CarryingNothing(kind, groups[k..], m);
    } else {
      CarryingNothing(kind, groups[..k], m);
    }
  }

  lemma {:induction false} FlatOfConcat(kind: Kind, a: seq<Group>, b: seq<Group>)
    ensures Flat(kind, a + b) == Flat(kind, a) + Flat(kind, b)
  {
    if a == [] {
      assert a + b == b;
    } else {
      assert (a + b)[1..] == a[1..] + b;
      FlatOfConcat(kind, a[1..], b);
    }
  }

  lemma FlatGrows(kind: Kind, groups: seq<Group>, k: nat)
    requires k < |groups|
    ensures Flat(kind, groups[..k + 1]) == Flat(kind, groups[..k]) + OfGroup(kind, groups[k])
  {
    assert groups[..k + 1] == groups[..k] + [groups[k]];
    FlatOfConcat(kind, groups[..k], [groups[k]]);
    assert [groups[k]][1..] == [];
  }

  lemma SentGrows(base: seq<Mutation>, kind: Kind, groups: seq<Group>, n: nat)
    requires n < |groups|
    ensures (base + Flat(kind, groups[..n])) + OfGroup(kind, groups[n]) == base + Flat(kind, groups[..n + 1])
  {
    FlatGrows(kind, groups, n);
    Associative(base, Flat(kind, groups[..n]), OfGroup(kind, groups[n]));
  }

  /** A batch is finished exactly without errors; it breaks with the one error a reply brought, or with a failure to be raised. */
  predicate EndsAsItMust(done: Finished, before: seq<Error>, after: seq<Error>, onError: OnError, failures: seq<(Job, Error)>) {
    match done
    case Finished(_, _, _) => after == before && (onError.RaiseErrors? ==> failures == [])
    case Broke(error) =>
      || after == before + [error]
      || (after == before && onError.RaiseErrors? && failures != [] && error == failures[0].1)
  }

  /** The completions sent first and the settlements sent behind them settle the batch. */
  lemma TwoPartsSettle(before: seq<Mutation>, middle: seq<Mutation>, after: seq<Mutation>, outcomes: seq<Outcome>, kind: Kind)
    requires before <= middle <= after
    requires CompletesLike(middle[|before|..], Successes(outcomes))
    requires Regroups(after[|middle|..], PerFailure(kind, Failures(outcomes)))
    ensures SettlesLike(after[|before|..], outcomes, kind)
  {
    var n := |Successes(outcomes)|;
    assert after[|before|..][..n] == middle[|before|..];
    assert after[|before|..][n..] == after[|middle|..];
  }

  class WorkerCompletion {
    const onError: OnError
    const hasJobResults: bool                  // the client offers complete_job_results
    const hasJobMutations: bool                // the client offers apply_job_mutations
    const server: nat -> Reply                 // the reply to the n-th call
    var calls: nat
    var sent: seq<Mutation>                    // everything sent so far, expanded to single mutations
    ghost var trouble: seq<Error>              // every error that a reply brought so far

    constructor (onError: OnError, hasJobResults: bool, hasJobMutations: bool, server: nat -> Reply)
      ensures this.onError == onError && this.hasJobResults == hasJobResults && this.hasJobMutations == hasJobMutations
      ensures this.server == server && sent == [] && calls == 0 && trouble == []
    {
      this.onError, this.hasJobResults, this.hasJobMutations := onError, hasJobResults, hasJobMutations;
      this.server := server;
      sent, calls, trouble := [], 0, [];
    }

    /** The server takes every call. */
    ghost predicate Accepting() {
      forall n: nat :: server(n) == Single(Fine)
    }

    method Send(call: Call) returns (reply: Reply)
      modifies this
      ensures sent == old(sent) + Expanded(call) && calls == old(calls) + 1 && reply == server(old(calls))
      ensures trouble == old(trouble) + Troubles(call, reply)
    {
      sent := sent + Expanded(call);
      reply := server(calls);
      trouble := trouble + Troubles(call, reply);
      calls := calls + 1;
    }

    /** `_complete_successes`: on success every success was completed with a value matching its own result. */
    method CompleteSuccesses(h: HandledBatch, ghost outcomes: seq<Outcome>) returns (error: seq<Error>)
      requires Represents(h, outcomes)
      modifies this
      ensures |error| <= 1 && trouble == old(trouble) + error
      ensures |sent| >= |old(sent)| && sent[..|old(sent)|] == old(sent)
      ensures error == [] ==> CompletesLike(sent[|old(sent)|..], Successes(outcomes))
      ensures Accepting() ==> error == []
      ensures error != [] ==> exists k :: 0 <= k <= |Successes(outcomes)|
                                && CompletesLike(sent[|old(sent)|..], Successes(outcomes)[..k])
    {
      ghost var own := Successes(outcomes);
      assert own[..|own|] == own;
      if h.jobs == [] { return []; }
      if h.mixed.Uniform? {
        var reply := Send(CompleteJobs(h.jobs, h.firstResult));
        assert CompletesLike(sent[|old(sent)|..], own);
        return FirstError(reply, |h.jobs|);
      }
      if hasJobResults {
        var reply := Send(CompleteJobResults(h.mixed.results));
        assert CompletesLike(sent[|old(sent)|..], own);
        return FirstError(reply, |h.mixed.results|);
      }
      for n := 0 to |h.mixed.results|
        invariant |sent| == |old(sent)| + n && sent[..|old(sent)|] == old(sent) && trouble == old(trouble)
        invariant CompletesLike(sent[|old(sent)|..], own[..n])
      {
        var reply := Send(CompleteOne(h.mixed.results[n].0, h.mixed.results[n].1));
        assert CompletesLike(sent[|old(sent)|..], own[..n + 1]);
        if reply.Raised? { return [reply.error]; }
      }
      return [];
    }

    /** `_handle_failures`: each failure gets one mutation with its own message. */
    method HandleFailures(failures: seq<(Job, Error)>) returns (done: Finished)
      modifies this
      ensures |sent| >= |old(sent)| && sent[..|old(sent)|] == old(sent)
      ensures var kind := KindOf(onError);
              WholeGroups(sent[|old(sent)|..], PerFailure(kind, failures))
              && (done.Finished? ==> Regroups(sent[|old(sent)|..], PerFailure(kind, failures)))
      ensures failures != [] && onError.RaiseErrors? ==> done == Broke(failures[0].1) && sent == old(sent) && trouble == old(trouble)
      ensures !(failures != [] && onError.RaiseErrors?) ==> trouble == old(trouble) + (if done.Broke? then [done.error] else [])
      ensures Accepting() && done.Broke? ==> failures != [] && onError.RaiseErrors?
      ensures done.Finished? ==> done == Finished(0, if onError.FailJobs? then 0 else |failures|,
                                                  if onError.FailJobs? then |failures| else 0)
    {
      if failures == [] { return Finished(0, 0, 0); }
      if onError.RaiseErrors? { return Broke(failures[0].1); }
      var kind := KindOf(onError);
      var groups := GroupFailures(failures);
      ghost var reference := PerFailure(kind, failures);
      assert Regroups(Flat(kind, groups), reference);
      if |groups| > 1 && hasJobMutations {
        var reply := Send(ApplyJobMutations(PerFailure(kind, failures)));
        assert sent[|old(sent)|..] == reference;
        var error := FirstError(reply, |failures|);
        assert trouble == old(trouble) + error;
        if error != [] {
          assert error == [error[0]];
          return Broke(error[0]);
        }
      } else {
        var error := SendGroups(kind, groups);
        forall m ensures var s := sent[|old(sent)|..]; Carrying(s, m) == [] || Carrying(s, m) == Carrying(reference, m) {
          var k :| 0 <= k <= |groups| && sent[|old(sent)|..] == Flat(kind, groups[..k]);
          SomeGroupsAreWhole(kind, groups, k, m);
        }
        if error != [] {
          assert error == [error[0]];
          return Broke(error[0]);
        }
      }
      return if onError.FailJobs? then Finished(0, 0, |failures|) else Finished(0, |failures|, 0);
    }

    /** One `fail_many` or `retry_many` per group, until one is refused. */
    method SendGroups(kind: Kind, groups: seq<Group>) returns (error: seq<Error>)
      modifies this
      ensures |error| <= 1 && trouble == old(trouble) + error
      ensures exists k :: 0 <= k <= |groups| && sent == old(sent) + Flat(kind, groups[..k])
      ensures error == [] ==> sent == old(sent) + Flat(kind, groups)
      ensures Accepting() ==> error == []
    {
      ghost var base := sent;
      for n := 0 to |groups|
        invariant sent == base + Flat(kind, groups[..n]) && trouble == old(trouble)
      {
        SentGrows(base, kind, groups, n);
        var reply := Send(SettleMany(kind, groups[n]));
        error := FirstError(reply, |groups[n].jobs|);
        if error != [] { return; }
      }
      assert groups[..|groups|] == groups;
      error := [];
    }

    /**
     `_finish_batch`: when it returns, every job of the batch was settled once,
     as per-job completion would, and the counts add up to the batch.  With
     `on_error="raise"` the first failure is raised after the successes.
     */
    method FinishBatch(h: HandledBatch, ghost outcomes: seq<Outcome>) returns (done: Finished)
      requires Represents(h, outcomes)
      modifies this
      ensures |sent| >= |old(sent)| && sent[..|old(sent)|] == old(sent)
      ensures done.Finished? ==>
                && SettlesLike(sent[|old(sent)|..], outcomes, KindOf(onError))
                && done.completed + done.retried + done.failed == |outcomes|
                && done.completed == |Successes(outcomes)|
                && (if onError.FailJobs? then done.retried == 0 else done.failed == 0)
      ensures onError.RaiseErrors? && Failures(outcomes) != [] ==> done.Broke?
      ensures EndsAsItMust(done, old(trouble), trouble, onError, Failures(outcomes))
      ensures Accepting() && done.Broke? ==>
                && onError.RaiseErrors? && Failures(outcomes) != [] && done.error == Failures(outcomes)[0].1
                && CompletesLike(sent[|old(sent)|..], Successes(outcomes))
    {
      EveryOutcomeIsOneOrTheOther(outcomes);
      var error := CompleteSuccesses(h, outcomes);
      if error != [] {
        assert error == [error[0]];
        return Broke(error[0]);
      }
      ghost var middle := sent;
      assert trouble == old(trouble) && old(sent) <= middle && CompletesLike(middle[|old(sent)|..], Successes(outcomes));
      done := HandleFailures(h.failures);
      assert middle <= sent;
      if done.Finished? {
        TwoPartsSettle(old(sent), middle, sent, outcomes, KindOf(onError));
        done := done.(completed := |h.jobs|);
      }
    }

    /**
     What the worker loop does with a handled batch: the fused command when it may
     and the batch is uniform and without failures, `_finish_batch` otherwise.
     */
    method Settle(outcomes: seq<Outcome>, mayFuse: bool) returns (done: Finished, fused: bool)
      modifies this
      ensures |sent| >= |old(sent)| && sent[..|old(sent)|] == old(sent)
      ensures fused <==> mayFuse && Successes(outcomes) != [] && Failures(outcomes) == []
                         && AllMatch(Successes(outcomes)[0].1, Successes(outcomes))
      ensures done.Finished? ==> Tallies(sent[|old(sent)|..], JobsOf(outcomes), done)
      ensures done.Finished? ==>
                && SettlesLike(sent[|old(sent)|..], outcomes, KindOf(onError))
                && done.completed == |Successes(outcomes)|
                && (if onError.FailJobs? then done.retried == 0 && done.failed == |Failures(outcomes)|
                    else done.retried == |Failures(outcomes)| && done.failed == 0)
      ensures EndsAsItMust(done, old(trouble), trouble, onError, Failures(outcomes))
      ensures Accepting() && done.Broke? ==> onError.RaiseErrors? && Failures(outcomes) != []
      ensures onError.RaiseErrors? && Failures(outcomes) != [] ==> done.Broke?
    {
      var h := HandledFromResults(outcomes);
      fused := mayFuse && h.jobs != [] && h.mixed.Uniform? && h.failures == [];
      EveryOutcomeIsOneOrTheOther(outcomes);
      if fused {
        UniformSettles(h, outcomes, KindOf(onError));
        var reply := Send(CompleteAndClaim(h.jobs, h.firstResult));
        done := if reply.Raised? then Broke(reply.error) else Finished(|h.jobs|, 0, 0);
        assert sent[|old(sent)|..] == Expanded(CompleteAndClaim(h.jobs, h.firstResult));
      } else {
        done := FinishBatch(h, outcomes);
      }
      if done.Finished? { SettledBatchTallies(sent[|old(sent)|..], outcomes, onError, done); }
    }
  }
}
