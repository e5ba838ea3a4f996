/**
 The wake-credit scheduler `PartitionWakeCoordinator`.

 Each worker owns a lane: a queue of partition tokens, the set of pending
 partitions and a map of credits.  Producers and consumers touch pending and
 credits under the lane's lock, but they put and get tokens outside it, so a
 token may be in the queue or in some thread's hands.
 */
module WakeCredit {
  import opened Common
  import Runs

  type Tid = nat

  datatype Lane = Lane(queue: seq<int>, pending: set<int>, credits: map<int, nat>)

  function CreditOf(credits: map<int, nat>, p: int): nat {
    if p in credits then credits[p] else 0
  }

  // ------------------------------------------------ the locked regions

  /** The locked region of `notify_partition` and of `return_credit`. */
  function Credited(lane: Lane, p: int, count: nat): Lane {
    lane.(credits := lane.credits[p := CreditOf(lane.credits, p) + count], pending := lane.pending + {p})
  }

  /** What `_take_credit` takes under the lock. */
  function Takes(lane: Lane, p: int, maxCredit: int): nat {
    var credit := CreditOf(lane.credits, p);
    if maxCredit <= 0 then 0 else if credit <= maxCredit then credit else maxCredit
  }

  /** The lane after the locked region of `_take_credit`. */
  function TakenUpTo(lane: Lane, p: int, maxCredit: int): Lane {
    var credit := CreditOf(lane.credits, p);
    if maxCredit <= 0 then lane
    else if credit > maxCredit then lane.(credits := lane.credits[p := credit - maxCredit])
    else lane.(credits := lane.credits - {p}, pending := lane.pending - {p})
  }

  predicate NeedsRequeue(lane: Lane, p: int, maxCredit: int) {
    0 < maxCredit < CreditOf(lane.credits, p)
  }

  /** The locked region of `take_credit` and of `next_partition`. */
  function TakenAll(lane: Lane, p: int): Lane {
    lane.(credits := lane.credits - {p}, pending := lane.pending - {p})
  }

  // ------------------------------------------------ the sum of all credits

  ghost function Sum(m: map<int, nat>): nat
    decreases |m|
  {
    if exists k :: k in m then
      var k :| k in m;
      m[k] + Sum(m - {k})
    else 0
  }

  lemma {:induction false} SumRemove(m: map<int, nat>, k: int)
    requires k in m
    ensures Sum(m) == m[k] + Sum(m - {k})
    decreases |m|
  {
    var j :| j in m && Sum(m) == m[j] + Sum(m - {j});
    if j != k {
      SumRemove(m - {j}, k);
      SumRemove(m - {k}, j);
      assert m - {j} - {k} == m - {k} - {j};
    }
  }

  lemma SumSet(m: map<int, nat>, k: int, v: nat)
    ensures Sum(m[k := v]) + CreditOf(m, k) == Sum(m) + v
  {
    SumRemove(m[k := v], k);
    assert m[k := v] - {k} == m - {k};
    if k in m { SumRemove(m, k); } else { assert m - {k} == m; }
  }

  lemma SumDrop(m: map<int, nat>, k: int)
    ensures Sum(m - {k}) + CreditOf(m, k) == Sum(m)
  {
    if k in m { SumRemove(m, k); } else { assert m - {k} == m; }
  }

  // ------------------------------------------------ threads on one lane

  /** The locals of one `next_partitions` call, and a record of the credit it took from each partition. */
  datatype Batch = Batch(maxPartitions: int, maxCredit: int, partitions: seq<int>, total: int, took: map<int, nat>)

  datatype Frame =
    | Putting(p: int)                        // credited, token not yet put
    | Scanning(batch: Batch)                 // at the head of a loop
    | Holding(batch: Batch, p: int)          // token taken from the queue
    | PuttingBack(batch: Batch, p: int)      // other group: put back, then stop
    | Requeueing(batch: Batch, p: int)       // credit left: put again, then go on
    | HoldingOne(p: int)                     // `next_partition` between get and lock
    | Finished(batch: Batch)

  /** A lane, its threads, and what went in and out of it. */
  datatype LaneState = LaneState(lane: Lane, frames: map<Tid, Frame>, notified: nat, returned: nat, taken: nat)

  datatype LaneAction =
    | Notify(t: Tid, p: int, count: int)
    | Return(t: Tid, p: int, count: int)
    | Put(t: Tid)
    | Start(t: Tid, maxPartitions: int, maxCredit: int)
    | Get(t: Tid)
    | Stop(t: Tid)
    | Take(t: Tid, otherGroup: bool, expired: bool)
    | StartOne(t: Tid)
    | TakeOne(t: Tid)
    | TakeDirect(p: int)

  predicate Idle(frames: map<Tid, Frame>, t: Tid) {
    t !in frames || frames[t].Finished?
  }

  predicate WantsMore(b: Batch) {
    b.partitions == [] || (|b.partitions| < b.maxPartitions && b.total < b.maxCredit)
  }

  function Added(b: Batch, p: int, credit: nat): Batch {
    b.(partitions := b.partitions + [p], total := b.total + credit)
  }

  /** The record of a batch that took credit from a partition. */
  function Recorded(b: Batch, p: int, credit: nat): map<int, nat> {
    if credit == 0 then b.took else b.took[p := CreditOf(b.took, p) + credit]
  }

  function Frames(s: LaneState, t: Tid, f: Frame): LaneState {
    s.(frames := s.frames[t := f])
  }

  /** Crediting a partition; the thread owes a token exactly when the partition was not pending. */
  function AfterCredit(s: LaneState, t: Tid, p: int, count: nat): LaneState {
    var s' := s.(lane := Credited(s.lane, p, count));
    if p in s.lane.pending then s' else Frames(s', t, Putting(p))
  }

  /** A consumer that holds a token runs `_take_credit`. */
  function AfterTake(s: LaneState, t: Tid, b: Batch, p: int, otherGroup: bool, expired: bool): LaneState {
    if b.partitions != [] && otherGroup then Frames(s, t, PuttingBack(b, p))
    else
      var max := b.maxCredit - b.total;
      var credit := Takes(s.lane, p, max);
      var s' := s.(lane := TakenUpTo(s.lane, p, max), taken := s.taken + credit);
      var more := Added(b, p, credit).(took := Recorded(b, p, credit));
      if NeedsRequeue(s.lane, p, max) then Frames(s', t, Requeueing(more, p))
      else if credit > 0 then Frames(s', t, Scanning(more))
      else if b.partitions == [] && expired then Frames(s', t, Finished(b))
      else Frames(s', t, Scanning(b))
  }

  function AfterPut(s: LaneState, t: Tid): LaneState
    requires t in s.frames
  {
    var s' := if s.frames[t].Putting? || s.frames[t].PuttingBack? || s.frames[t].Requeueing?
              then s.(lane := s.lane.(queue := s.lane.queue + [s.frames[t].p])) else s;
    match s.frames[t]
    case Putting(p) => s'.(frames := s.frames - {t})
    case PuttingBack(b, p) => Frames(s', t, Finished(b))
    case Requeueing(b, p) => Frames(s', t, Scanning(b))
    case _ => s
  }

  function LaneStep(s: LaneState, a: LaneAction): LaneState {
    match a
    case Notify(t, p, count) =>
      if count > 0 && Idle(s.frames, t) then AfterCredit(s, t, p, count).(notified := s.notified + count) else s
    case Return(t, p, count) =>
      if count > 0 && Idle(s.frames, t) then AfterCredit(s, t, p, count).(returned := s.returned + count) else s
    case Put(t) => if t in s.frames then AfterPut(s, t) else s
    case Start(t, maxPartitions, maxCredit) =>
      if maxPartitions > 0 && maxCredit > 0 && Idle(s.frames, t)
      then Frames(s, t, Scanning(Batch(maxPartitions, maxCredit, [], 0, map[]))) else s
    case Get(t) =>
      if t in s.frames && s.frames[t].Scanning? && WantsMore(s.frames[t].batch) && s.lane.queue != []
      then Frames(s.(lane := s.lane.(queue := s.lane.queue[1..])), t, Holding(s.frames[t].batch, s.lane.queue[0]))
      else s
    case Stop(t) =>
      if t in s.frames && s.frames[t].Scanning? && (!WantsMore(s.frames[t].batch) || s.lane.queue == [])
      then Frames(s, t, Finished(s.frames[t].batch)) else s
    case Take(t, otherGroup, expired) =>
      if t in s.frames && s.frames[t].Holding?
      then AfterTake(s, t, s.frames[t].batch, s.frames[t].p, otherGroup, expired) else s
    case StartOne(t) =>
      if Idle(s.frames, t) && s.lane.queue != []
      then Frames(s.(lane := s.lane.(queue := s.lane.queue[1..])), t, HoldingOne(s.lane.queue[0])) else s
    case TakeOne(t) =>
      if t in s.frames && s.frames[t].HoldingOne? then
        var p := s.frames[t].p;
        s.(lane := TakenAll(s.lane, p), taken := s.taken + CreditOf(s.lane.credits, p), frames := s.frames - {t})
      else s
    case TakeDirect(p) =>
      s.(lane := TakenAll(s.lane, p), taken := s.taken + CreditOf(s.lane.credits, p))
  }

  // ------------------------------------------------ what every step keeps

  predicate HoldsToken(f: Frame, p: int) {
    !f.Scanning? && !f.Finished? && f.p == p
  }

  /** Somewhere a token for `p` exists: queued, held, or about to be put. */
  ghost predicate HasToken(queue: seq<int>, frames: map<Tid, Frame>, p: int) {
    p in queue || exists t :: t in frames && HoldsToken(frames[t], p)
  }

  ghost predicate PendingIsCredited(lane: Lane) {
    && lane.pending == lane.credits.Keys
    && forall p :: p in lane.credits ==> lane.credits[p] > 0
  }

  ghost predicate NoLostWakeup(s: LaneState) {
    forall p :: p in s.lane.pending ==> HasToken(s.lane.queue, s.frames, p)
  }

  predicate BatchOk(b: Batch) {
    && 0 < b.maxPartitions && 0 < b.maxCredit
    && |b.partitions| <= b.maxPartitions && 0 <= b.total <= b.maxCredit
    && (b.total > 0 <==> b.partitions != [])
  }

  /** A batch lists exactly the partitions it took credit from, and its total is what it took. */
  ghost predicate ListsWhatItTook(b: Batch) {
    && (forall q :: q in b.partitions <==> q in b.took)
    && (forall q :: q in b.took ==> b.took[q] > 0)
    && Sum(b.took) == b.total
  }

  ghost predicate FrameOk(f: Frame) {
    match f
    case Holding(b, _) => BatchOk(b) && ListsWhatItTook(b) && |b.partitions| < b.maxPartitions && b.total < b.maxCredit
    case Scanning(b) => BatchOk(b) && ListsWhatItTook(b)
    case PuttingBack(b, _) => BatchOk(b) && ListsWhatItTook(b)
    case Requeueing(b, _) => BatchOk(b) && ListsWhatItTook(b)
    case Finished(b) => BatchOk(b) && ListsWhatItTook(b)
    case Putting(_) => true
    case HoldingOne(_) => true
  }

  ghost predicate FramesOk(frames: map<Tid, Frame>) {
    forall t :: t in frames ==> FrameOk(frames[t])
  }

  /** Outstanding credit plus credit taken is credit notified plus credit returned. */
  ghost predicate CreditConserved(s: LaneState) {
    Sum(s.lane.credits) + s.taken == s.notified + s.returned
  }

  ghost predicate LaneInv(s: LaneState) {
    PendingIsCredited(s.lane) && NoLostWakeup(s) && FramesOk(s.frames) && CreditConserved(s)
  }

  /** Tokens for `p` survive when only thread `t` moved and it did not hold one. */
  lemma TokenSurvives(s: LaneState, s': LaneState, t: Tid, p: int)
    requires HasToken(s.lane.queue, s.frames, p)
    requires forall u :: u in s.frames && u != t ==> u in s'.frames && s'.frames[u] == s.frames[u]
    requires forall q :: q in s.lane.queue ==> q in s'.lane.queue || (t in s'.frames && HoldsToken(s'.frames[t], q))
    requires t in s.frames && HoldsToken(s.frames[t], p) ==> HasToken(s'.lane.queue, s'.frames, p)
    ensures HasToken(s'.lane.queue, s'.frames, p)
  {
    if p !in s.lane.queue {
      var u :| u in s.frames && HoldsToken(s.frames[u], p);
      if u != t { assert HoldsToken(s'.frames[u], p); }
    }
  }

  lemma CreditKeepsTokens(s: LaneState, t: Tid, p: int, count: nat)
    requires PendingIsCredited(s.lane) && NoLostWakeup(s) && FramesOk(s.frames) && count > 0 && Idle(s.frames, t)
    ensures var s' := AfterCredit(s, t, p, count);
            PendingIsCredited(s'.lane) && NoLostWakeup(s') && FramesOk(s'.frames)
  {
    var s' := AfterCredit(s, t, p, count);
    forall q | q in s'.lane.pending ensures HasToken(s'.lane.queue, s'.frames, q) {
      if q in s.lane.pending {
        TokenSurvives(s, s', t, q);
      } else {
        assert HoldsToken(s'.frames[t], q);
      }
    }
  }

  lemma CreditAddsUp(lane: Lane, p: int, count: nat)
    ensures Sum(Credited(lane, p, count).credits) == Sum(lane.credits) + count
  {
    SumSet(lane.credits, p, CreditOf(lane.credits, p) + count);
  }

  /** Taking moves credit out of the lane and loses none. */
  lemma TakeAddsUp(lane: Lane, p: int, maxCredit: int)
    ensures Sum(TakenUpTo(lane, p, maxCredit).credits) + Takes(lane, p, maxCredit) == Sum(lane.credits)
  {
    SumDrop(lane.credits, p);
    if NeedsRequeue(lane, p, maxCredit) { SumSet(lane.credits, p, CreditOf(lane.credits, p) - maxCredit); }
  }

  lemma PutKeepsInv(s: LaneState, t: Tid)
    requires LaneInv(s) && t in s.frames
    ensures LaneInv(AfterPut(s, t))
  {
    var s' := AfterPut(s, t);
    forall q | q in s'.lane.pending ensures HasToken(s'.lane.queue, s'.frames, q) {
      TokenSurvives(s, s', t, q);
    }
  }

  lemma GetKeepsInv(s: LaneState, t: Tid, f: Frame)
    requires LaneInv(s) && s.lane.queue != []
    requires t in s.frames ==> s.frames[t].Scanning? || s.frames[t].Finished?
    requires FrameOk(f) && HoldsToken(f, s.lane.queue[0])
    ensures LaneInv(Frames(s.(lane := s.lane.(queue := s.lane.queue[1..])), t, f))
  {
    var s' := Frames(s.(lane := s.lane.(queue := s.lane.queue[1..])), t, f);
    assert s.lane.queue == [s.lane.queue[0]] + s'.lane.queue;
    forall q | q in s'.lane.pending ensures HasToken(s'.lane.queue, s'.frames, q) {
      TokenSurvives(s, s', t, q);
    }
  }

  lemma AddedLists(b: Batch, p: int, credit: nat)
    requires ListsWhatItTook(b) && credit > 0
    ensures ListsWhatItTook(Added(b, p, credit).(took := Recorded(b, p, credit)))
  {
    SumSet(b.took, p, CreditOf(b.took, p) + credit);
    var more := Added(b, p, credit).(took := Recorded(b, p, credit));
    forall q ensures q in more.partitions <==> q in more.took {
      assert q in more.partitions <==> q in b.partitions || q == p;
    }
  }

  /** A take moves credit: what each partition loses is what the batch records for it. */
  lemma TakeMovesCredit(s: LaneState, t: Tid, otherGroup: bool, expired: bool, q: int)
    requires t in s.frames && s.frames[t].Holding?
    ensures var s' := LaneStep(s, Take(t, otherGroup, expired));
            && t in s'.frames && !s'.frames[t].Putting? && !s'.frames[t].HoldingOne?
            && CreditOf(s.lane.credits, q) - CreditOf(s'.lane.credits, q)
               == CreditOf(s'.frames[t].batch.took, q) - CreditOf(s.frames[t].batch.took, q)
  {
  }

  /** A consumer that has partitions goes on exactly while there is room for one more, credit to take and a token. */
  lemma GoesOnWhileThereIsMore(s: LaneState, t: Tid)
    requires t in s.frames && s.frames[t].Scanning? && s.frames[t].batch.partitions != []
    ensures var b := s.frames[t].batch;
            var more := |b.partitions| < b.maxPartitions && b.total < b.maxCredit && s.lane.queue != [];
            && (more <==> LaneStep(s, Get(t)).frames[t].Holding?)
            && (!more <==> LaneStep(s, Stop(t)).frames[t] == Finished(b))
            && (more ==> LaneStep(s, Get(t)).frames[t].p == s.lane.queue[0] && LaneStep(s, Get(t)).lane.queue == s.lane.queue[1..])
  {
  }

  /**
   Where a batch that drew a token goes.  A later token of another group is put back
   and ends the batch.  A token without credit is dropped; that ends a batch without
   partitions whose time is over, any other looks on.  A token with credit is
   listed with as much as the limit allows, and put back when credit is left.
   */
  lemma TakeGoesOn(s: LaneState, t: Tid, otherGroup: bool, expired: bool)
    requires t in s.frames && s.frames[t].Holding? && s.frames[t].batch.total < s.frames[t].batch.maxCredit
    ensures var b, p := s.frames[t].batch, s.frames[t].p;
            var credit, room := CreditOf(s.lane.credits, p), b.maxCredit - b.total;
            var f := LaneStep(s, Take(t, otherGroup, expired)).frames[t];
            && (b.partitions != [] && otherGroup ==> f == PuttingBack(b, p))
            && (b.partitions == [] || !otherGroup ==>
                  && (credit == 0 ==> f == if b.partitions == [] && expired then Finished(b) else Scanning(b))
                  && (credit > room ==> f.Requeueing? && f.p == p && f.batch.total == b.maxCredit)
                  && (0 < credit <= room ==> f.Scanning? && f.batch.total == b.total + credit)
                  && (credit > 0 ==> f.batch.partitions == b.partitions + [p]))
  {
  }

  /** `_take_credit` with a positive limit gives up the token only when no credit is left. */
  lemma TakeKeepsInv(s: LaneState, t: Tid, otherGroup: bool, expired: bool)
    requires LaneInv(s) && t in s.frames && s.frames[t].Holding?
    ensures LaneInv(AfterTake(s, t, s.frames[t].batch, s.frames[t].p, otherGroup, expired))
  {
    var b, p := s.frames[t].batch, s.frames[t].p;
    var s' := AfterTake(s, t, b, p, otherGroup, expired);
    assert FrameOk(s.frames[t]);
    TakeAddsUp(s.lane, p, b.maxCredit - b.total);
    if Takes(s.lane, p, b.maxCredit - b.total) > 0 { AddedLists(b, p, Takes(s.lane, p, b.maxCredit - b.total)); }
    assert FrameOk(s'.frames[t]);
    forall q | q in s'.lane.pending ensures HasToken(s'.lane.queue, s'.frames, q) {
      if q == p { assert HoldsToken(s'.frames[t], q); }
      TokenSurvives(s, s', t, q);
    }
  }

  lemma TakeAllKeepsInv(s: LaneState, p: int, frames: map<Tid, Frame>)
    requires LaneInv(s)
    requires frames == s.frames || exists t :: t in s.frames && s.frames[t] == HoldingOne(p) && frames == s.frames - {t}
    ensures LaneInv(s.(lane := TakenAll(s.lane, p), taken := s.taken + CreditOf(s.lane.credits, p), frames := frames))
  {
    var s' := s.(lane := TakenAll(s.lane, p), taken := s.taken + CreditOf(s.lane.credits, p), frames := frames);
    SumDrop(s.lane.credits, p);
    forall q | q in s'.lane.pending ensures HasToken(s'.lane.queue, s'.frames, q) {
      assert q in s.lane.pending && q != p;
      if q !in s.lane.queue {
        var u :| u in s.frames && HoldsToken(s.frames[u], q);
        assert u in frames && HoldsToken(frames[u], q);
      }
    }
  }

  lemma LaneStepKeepsInv(s: LaneState, a: LaneAction)
    requires LaneInv(s)
    ensures LaneInv(LaneStep(s, a))
  {
    match a
    case Notify(t, p, count) =>
      if count > 0 && Idle(s.frames, t) {
        CreditKeepsTokens(s, t, p, count);
        CreditAddsUp(s.lane, p, count);
      }
    case Return(t, p, count) =>
      if count > 0 && Idle(s.frames, t) {
        CreditKeepsTokens(s, t, p, count);
        CreditAddsUp(s.lane, p, count);
      }
    case Put(t) => if t in s.frames { PutKeepsInv(s, t); }
    case Start(t, _, _) =>
      assert Sum(map[]) == 0;
      QuietFrameKeepsInv(s, LaneStep(s, a), t);
    case Get(t) =>
      if t in s.frames && s.frames[t].Scanning? && WantsMore(s.frames[t].batch) && s.lane.queue != [] {
        assert FrameOk(s.frames[t]);
        GetKeepsInv(s, t, Holding(s.frames[t].batch, s.lane.queue[0]));
      }
    case Stop(t) => QuietFrameKeepsInv(s, LaneStep(s, a), t);
    case Take(t, otherGroup, expired) =>
      if t in s.frames && s.frames[t].Holding? { TakeKeepsInv(s, t, otherGroup, expired); }
    case StartOne(t) =>
      if Idle(s.frames, t) && s.lane.queue != [] { GetKeepsInv(s, t, HoldingOne(s.lane.queue[0])); }
    case TakeOne(t) =>
      if t in s.frames && s.frames[t].HoldingOne? { TakeAllKeepsInv(s, s.frames[t].p, s.frames - {t}); }
    case TakeDirect(p) => TakeAllKeepsInv(s, p, s.frames);
  }

  lemma QuietFrameKeepsInv(s: LaneState, s': LaneState, t: Tid)
    requires LaneInv(s) && s' == s.(frames := s'.frames)
    requires s'.frames == s.frames || (t in s'.frames && s'.frames == s.frames[t := s'.frames[t]]
                                       && FrameOk(s'.frames[t])
                                       && (t in s.frames ==> s.frames[t].Scanning? || s.frames[t].Finished?))
    ensures LaneInv(s')
  {
    forall q | q in s'.lane.pending ensures HasToken(s'.lane.queue, s'.frames, q) {
      TokenSurvives(s, s', t, q);
    }
  }

  /**
   `_take_credit` gives up the token of a pending partition without handing it
   back exactly when it is called with a non-positive limit: the one way to lose
   a wakeup, which `next_partitions` never takes.
   */
  lemma TokenDroppedIffLimitNotPositive(lane: Lane, p: int, maxCredit: int)
    requires PendingIsCredited(lane) && p in lane.pending
    ensures p in TakenUpTo(lane, p, maxCredit).pending && !NeedsRequeue(lane, p, maxCredit) <==> maxCredit <= 0
  {
  }

  // ------------------------------------------------ exactly one token

  /** The number of tokens for `p`, queued or in some thread's hands. */
  ghost function Tokens(s: LaneState, p: int): nat {
    multiset(s.lane.queue)[p] + |Holders(s, p)|
  }

  ghost function Holders(s: LaneState, p: int): set<Tid> {
    set t | t in s.frames && HoldsToken(s.frames[t], p)
  }

  ghost predicate QueueDistinct(lane: Lane) {
    && (forall i, j :: 0 <= i < j < |lane.queue| ==> lane.queue[i] != lane.queue[j])
    && (forall p :: p in lane.queue ==> p in lane.pending)
  }

  ghost predicate HoldersDistinct(lane: Lane, frames: map<Tid, Frame>) {
    && (forall t, p :: t in frames && HoldsToken(frames[t], p) ==> p in lane.pending && p !in lane.queue)
    && (forall t, u, p :: t in frames && u in frames && HoldsToken(frames[t], p) && HoldsToken(frames[u], p) ==> t == u)
  }

  /** No partition has two tokens, and only pending partitions have one. */
  ghost predicate AtMostOneToken(s: LaneState) {
    QueueDistinct(s.lane) && HoldersDistinct(s.lane, s.frames)
  }

  lemma {:induction false} DistinctCount(q: seq<int>, p: int)
    requires forall i, j :: 0 <= i < j < |q| ==> q[i] != q[j]
    ensures multiset(q)[p] == if p in q then 1 else 0
  {
    if q != [] {
      var front := q[..|q| - 1];
      assert q == front + [q[|q| - 1]];
      DistinctCount(front, p);
    }
  }

  lemma ExactlyOneToken(s: LaneState, p: int)
    requires LaneInv(s) && AtMostOneToken(s)
    ensures Tokens(s, p) == if p in s.lane.pending then 1 else 0
  {
    DistinctCount(s.lane.queue, p);
    var holders := Holders(s, p);
    if p in s.lane.pending && p !in s.lane.queue {
      assert HasToken(s.lane.queue, s.frames, p);
      var u :| u in s.frames && HoldsToken(s.frames[u], p);
      assert holders == {u};
    } else {
      assert holders == {};
    }
  }

  /** Every partition has exactly one token when it is pending and none otherwise. */
  ghost predicate OneTokenEach(s: LaneState) {
    forall p :: Tokens(s, p) == if p in s.lane.pending then 1 else 0
  }

  lemma CountsTwo(q: seq<int>, i: nat, j: nat)
    requires i < j < |q| && q[i] == q[j]
    ensures multiset(q)[q[i]] >= 2
  {
    assert q == q[..i] + [q[i]] + q[i + 1..j] + [q[j]] + q[j + 1..];
  }

  lemma HoldersCount(s: LaneState, t: Tid, u: Tid, p: int)
    requires t in s.frames && u in s.frames && HoldsToken(s.frames[t], p) && HoldsToken(s.frames[u], p)
    ensures |Holders(s, p)| >= 1 && (t != u ==> |Holders(s, p)| >= 2)
  {
    assert t in Holders(s, p) && u in Holders(s, p);
    AtLeastOne(Holders(s, p), t);
    if t != u { AtLeastTwo(Holders(s, p), t, u); }
  }

  /** The structural form of "exactly one token each". */
  lemma OneTokenEachIff(s: LaneState)
    requires LaneInv(s)
    ensures OneTokenEach(s) <==> AtMostOneToken(s)
  {
    if AtMostOneToken(s) {
      forall p ensures Tokens(s, p) == if p in s.lane.pending then 1 else 0 { ExactlyOneToken(s, p); }
    }
    if OneTokenEach(s) {
      forall i, j | 0 <= i < j < |s.lane.queue| ensures s.lane.queue[i] != s.lane.queue[j] {
        assert Tokens(s, s.lane.queue[i]) <= 1;
        if s.lane.queue[i] == s.lane.queue[j] { CountsTwo(s.lane.queue, i, j); }
      }
      forall p | p in s.lane.queue ensures p in s.lane.pending {
        assert Tokens(s, p) >= 1;
      }
      forall t, p | t in s.frames && HoldsToken(s.frames[t], p) ensures p in s.lane.pending && p !in s.lane.queue {
        HoldersCount(s, t, t, p);
        assert 1 <= Tokens(s, p) <= 1;
      }
      forall t, u, p | t in s.frames && u in s.frames && HoldsToken(s.frames[t], p) && HoldsToken(s.frames[u], p) ensures t == u {
        HoldersCount(s, t, u, p);
        assert Tokens(s, p) <= 1;
      }
    }
  }

  lemma CreditKeepsOne(s: LaneState, t: Tid, p: int, count: nat)
    requires AtMostOneToken(s) && Idle(s.frames, t)
    ensures AtMostOneToken(AfterCredit(s, t, p, count))
  {
  }

  lemma PutKeepsOne(s: LaneState, t: Tid)
    requires AtMostOneToken(s) && t in s.frames
    ensures AtMostOneToken(AfterPut(s, t))
  {
    var s' := AfterPut(s, t);
    if s' != s {
      var p := s.frames[t].p;
      assert HoldsToken(s.frames[t], p);
      assert s'.lane.queue == s.lane.queue + [p];
      assert p !in s.lane.queue;
      assert forall i :: 0 <= i < |s.lane.queue| ==> s.lane.queue[i] in s.lane.queue;
    }
  }

  lemma TailKeepsDistinct(lane: Lane)
    requires QueueDistinct(lane) && lane.queue != []
    ensures QueueDistinct(lane.(queue := lane.queue[1..])) && lane.queue[0] !in lane.queue[1..]
    ensures forall q :: q in lane.queue[1..] ==> q in lane.queue
  {
    var tail := lane.queue[1..];
    assert forall i :: 0 <= i < |tail| ==> tail[i] == lane.queue[i + 1];
  }

  lemma GetKeepsOne(s: LaneState, t: Tid, f: Frame)
    requires AtMostOneToken(s) && s.lane.queue != []
    requires t in s.frames ==> s.frames[t].Scanning? || s.frames[t].Finished?
    requires HoldsToken(f, s.lane.queue[0])
    ensures AtMostOneToken(Frames(s.(lane := s.lane.(queue := s.lane.queue[1..])), t, f))
  {
    TailKeepsDistinct(s.lane);
    assert s.lane.queue[0] in s.lane.queue;
    forall u | u in s.frames && u != t ensures !HoldsToken(s.frames[u], s.lane.queue[0]) {
    }
  }

  lemma TakeKeepsOne(s: LaneState, t: Tid, otherGroup: bool, expired: bool)
    requires LaneInv(s) && AtMostOneToken(s) && t in s.frames && s.frames[t].Holding?
    ensures AtMostOneToken(AfterTake(s, t, s.frames[t].batch, s.frames[t].p, otherGroup, expired))
  {
    assert HoldsToken(s.frames[t], s.frames[t].p) && FrameOk(s.frames[t]);
  }

  lemma TakeOneKeepsOne(s: LaneState, t: Tid)
    requires AtMostOneToken(s) && t in s.frames && s.frames[t].HoldingOne?
    ensures AtMostOneToken(LaneStep(s, TakeOne(t)))
  {
    assert HoldsToken(s.frames[t], s.frames[t].p);
  }

  /** `take_credit` on a pending partition leaves its token behind, and on any other does nothing. */
  lemma TakeDirectKeepsOneIff(s: LaneState, p: int)
    requires LaneInv(s) && AtMostOneToken(s)
    ensures AtMostOneToken(LaneStep(s, TakeDirect(p))) <==> p !in s.lane.pending
  {
    var s' := LaneStep(s, TakeDirect(p));
    assert s'.lane.queue == s.lane.queue && s'.frames == s.frames && p !in s'.lane.pending;
    if p in s.lane.pending {
      assert HasToken(s.lane.queue, s.frames, p);
    } else {
      assert s'.lane.pending == s.lane.pending;
    }
  }

  /** A step keeps tokens unique if and only if it is not `take_credit` on a pending partition. */
  lemma LaneStepKeepsOneIff(s: LaneState, a: LaneAction)
    requires LaneInv(s) && AtMostOneToken(s)
    ensures AtMostOneToken(LaneStep(s, a)) <==> !(a.TakeDirect? && a.p in s.lane.pending)
  {
    if a.TakeDirect? { TakeDirectKeepsOneIff(s, a.p); } else { LaneStepKeepsOne(s, a); }
  }

  lemma LaneStepKeepsOne(s: LaneState, a: LaneAction)
    requires LaneInv(s) && AtMostOneToken(s) && !a.TakeDirect?
    ensures AtMostOneToken(LaneStep(s, a))
  {
    match a
    case Notify(t, p, count) => if count > 0 && Idle(s.frames, t) { CreditKeepsOne(s, t, p, count); }
    case Return(t, p, count) => if count > 0 && Idle(s.frames, t) { CreditKeepsOne(s, t, p, count); }
    case Put(t) => if t in s.frames { PutKeepsOne(s, t); }
    case Start(t, _, _) =>
    case Get(t) =>
      if t in s.frames && s.frames[t].Scanning? && WantsMore(s.frames[t].batch) && s.lane.queue != [] {
        GetKeepsOne(s, t, Holding(s.frames[t].batch, s.lane.queue[0]));
      }
    case Stop(t) =>
    case Take(t, otherGroup, expired) =>
      if t in s.frames && s.frames[t].Holding? { TakeKeepsOne(s, t, otherGroup, expired); }
    case StartOne(t) =>
      if Idle(s.frames, t) && s.lane.queue != [] { GetKeepsOne(s, t, HoldingOne(s.lane.queue[0])); }
    case TakeOne(t) =>
      if t in s.frames && s.frames[t].HoldingOne? { TakeOneKeepsOne(s, t); }
  }

  // ------------------------------------------------ all lanes

  datatype Action =
    | NotifyPartition(t: Tid, p: int, count: int)
    | On(worker: nat, action: LaneAction)

  datatype Config = Config(workers: nat, ownerFor: Option<int -> int>)

  /** The lane that `notify_partition` picks. */
  function Owner(config: Config, p: int): nat
    requires config.workers > 0
  {
    (if config.ownerFor.Some? then config.ownerFor.value(p) else p) % config.workers
  }

  function Lanes(lanes: seq<LaneState>, w: nat, a: LaneAction): seq<LaneState> {
    if w < |lanes| then lanes[w := LaneStep(lanes[w], a)] else lanes
  }

  function Step(config: Config, lanes: seq<LaneState>, a: Action): seq<LaneState> {
    match a
    case NotifyPartition(t, p, count) =>
      if config.workers > 0 then Lanes(lanes, Owner(config, p), Notify(t, p, count)) else lanes
    case On(w, la) => if la.Notify? then lanes else Lanes(lanes, w, la)
  }

  function Stepper(config: Config): (seq<LaneState>, Action) -> seq<LaneState> {
    (lanes: seq<LaneState>, a: Action) => Step(config, lanes, a)
  }

  function EmptyLane(): LaneState {
    LaneState(Lane([], {}, map[]), map[], 0, 0, 0)
  }

  function Started(config: Config): seq<LaneState> {
    seq(config.workers, _ => EmptyLane())
  }

  ghost predicate AllLanesOk(lanes: seq<LaneState>) {
    forall w :: 0 <= w < |lanes| ==> LaneInv(lanes[w])
  }

  /** The lanes after a run. */
  function Reached(config: Config, actions: seq<Action>): seq<LaneState> {
    Runs.Run(Stepper(config), Started(config), actions)
  }

  lemma ReachedNext(config: Config, actions: seq<Action>, k: nat)
    requires k < |actions|
    ensures Reached(config, actions[..k + 1]) == Step(config, Reached(config, actions[..k]), actions[k])
  {
    assert actions[..k + 1][..k] == actions[..k];
  }

  /**
   In every interleaving of producers and consumers over all workers: a
   partition is pending exactly when it has credit, every pending partition has
   a token somewhere, every batch respects its limits, and credit is conserved.
   */
  lemma {:induction false} NoWakeupIsEverLost(config: Config, actions: seq<Action>)
    ensures AllLanesOk(Reached(config, actions))
    decreases |actions|
  {
    if actions != [] {
      var front := actions[..|actions| - 1];
      NoWakeupIsEverLost(config, front);
      StepKeepsAll(config, Reached(config, front), actions[|actions| - 1]);
    }
  }

  lemma StepKeepsAll(config: Config, lanes: seq<LaneState>, a: Action)
    requires AllLanesOk(lanes)
    ensures AllLanesOk(Step(config, lanes, a))
  {
    match a
    case NotifyPartition(t, p, count) =>
      if config.workers > 0 && Owner(config, p) < |lanes| {
        LaneStepKeepsInv(lanes[Owner(config, p)], Notify(t, p, count));
      }
    case On(w, la) => if w < |lanes| { LaneStepKeepsInv(lanes[w], la); }
  }

  ghost predicate AllLanesUnique(lanes: seq<LaneState>) {
    forall w :: 0 <= w < |lanes| ==> AtMostOneToken(lanes[w])
  }

  /** The action is a `take_credit` on a partition that is pending at that moment. */
  predicate HitsPending(lanes: seq<LaneState>, a: Action) {
    a.On? && a.action.TakeDirect? && a.worker < |lanes| && a.action.p in lanes[a.worker].lane.pending
  }

  lemma StepKeepsUniqueIff(config: Config, lanes: seq<LaneState>, a: Action)
    requires AllLanesOk(lanes) && AllLanesUnique(lanes)
    ensures AllLanesUnique(Step(config, lanes, a)) <==> !HitsPending(lanes, a)
  {
    match a
    case NotifyPartition(t, p, count) =>
      if config.workers > 0 && Owner(config, p) < |lanes| {
        LaneStepKeepsOneIff(lanes[Owner(config, p)], Notify(t, p, count));
      }
    case On(w, la) =>
      if w < |lanes| && !la.Notify? {
        LaneStepKeepsOneIff(lanes[w], la);
        assert Step(config, lanes, a)[w] == LaneStep(lanes[w], la);
      }
  }

  /** At every moment of the run, on every worker, every partition has one token when pending and none otherwise. */
  ghost predicate AlwaysOneTokenEach(config: Config, actions: seq<Action>) {
    forall k, w :: 0 <= k <= |actions| && 0 <= w < |Reached(config, actions[..k])| ==> OneTokenEach(Reached(config, actions[..k])[w])
  }

  predicate NeverHitsPending(config: Config, actions: seq<Action>) {
    forall k :: 0 <= k < |actions| ==> !HitsPending(Reached(config, actions[..k]), actions[k])
  }

  lemma {:induction false} UniqueUpTo(config: Config, actions: seq<Action>, k: nat)
    requires k <= |actions| && NeverHitsPending(config, actions)
    ensures AllLanesUnique(Reached(config, actions[..k]))
    decreases k
  {
    if k > 0 {
      UniqueUpTo(config, actions, k - 1);
      ReachedNext(config, actions, k - 1);
      NoWakeupIsEverLost(config, actions[..k - 1]);
      assert !HitsPending(Reached(config, actions[..k - 1]), actions[k - 1]);
      StepKeepsUniqueIff(config, Reached(config, actions[..k - 1]), actions[k - 1]);
    }
  }

  lemma UniqueIsOneEach(config: Config, actions: seq<Action>)
    ensures AllLanesUnique(Reached(config, actions))
       <==> forall w :: 0 <= w < |Reached(config, actions)| ==> OneTokenEach(Reached(config, actions)[w])
  {
    NoWakeupIsEverLost(config, actions);
    var lanes := Reached(config, actions);
    forall w | 0 <= w < |lanes| ensures OneTokenEach(lanes[w]) <==> AtMostOneToken(lanes[w]) {
      OneTokenEachIff(lanes[w]);
    }
  }

  /**
   Exactly when tokens stay unique: in a run, a pending partition always has
   exactly one token, and no other has any, if and only if no `take_credit` of
   the run hits a pending partition.
   */
  lemma OneTokenIffNoTakeHitsPending(config: Config, actions: seq<Action>)
    ensures AlwaysOneTokenEach(config, actions) <==> NeverHitsPending(config, actions)
  {
    if NeverHitsPending(config, actions) {
      forall k, w | 0 <= k <= |actions| && 0 <= w < |Reached(config, actions[..k])|
        ensures OneTokenEach(Reached(config, actions[..k])[w])
      {
        UniqueUpTo(config, actions, k);
        UniqueIsOneEach(config, actions[..k]);
      }
    }
    if AlwaysOneTokenEach(config, actions) {
      forall k | 0 <= k < |actions| ensures !HitsPending(Reached(config, actions[..k]), actions[k]) {
        OneEachAt(config, actions, k);
        OneEachAt(config, actions, k + 1);
        NoWakeupIsEverLost(config, actions[..k]);
        ReachedNext(config, actions, k);
        StepKeepsUniqueIff(config, Reached(config, actions[..k]), actions[k]);
      }
    }
  }

  lemma OneEachAt(config: Config, actions: seq<Action>, k: nat)
    requires k <= |actions| && AlwaysOneTokenEach(config, actions)
    ensures AllLanesUnique(Reached(config, actions[..k]))
  {
    var lanes := Reached(config, actions[..k]);
    forall w | 0 <= w < |lanes| ensures OneTokenEach(lanes[w]) {
    }
    UniqueIsOneEach(config, actions[..k]);
  }

  /** The run: credit, put, `take_credit`, credit and put again. */
  predicate IsTwoTokens(a: seq<Action>) {
    && |a| == 5
    && a[0] == NotifyPartition(0, 7, 1) && a[1] == On(0, Put(0)) && a[2] == On(0, TakeDirect(7))
    && a[3] == NotifyPartition(0, 7, 1) && a[4] == On(0, Put(0))
  }

  lemma TwoTokensRun(config: Config, a: seq<Action>)
    requires config == Config(1, None) && IsTwoTokens(a)
    ensures var lanes := Reached(config, a); |lanes| == 1 && lanes[0].lane.queue == [7, 7]
  {
    var s1 := LaneState(Lane([], {7}, map[7 := 1]), map[0 := Putting(7)], 1, 0, 0);
    var s2 := LaneState(Lane([7], {7}, map[7 := 1]), map[], 1, 0, 0);
    var s3 := LaneState(Lane([7], {}, map[]), map[], 1, 0, 1);
    var s4 := LaneState(Lane([7], {7}, map[7 := 1]), map[0 := Putting(7)], 2, 0, 1);
    var s5 := LaneState(Lane([7, 7], {7}, map[7 := 1]), map[], 2, 0, 1);
    Notifies7(config, EmptyLane(), s1);
    Puts7(config, s1, s2);
    Takes7(config, s2, s3);
    Notifies7(config, s3, s4);
    Puts7(config, s4, s5);
    FiveSteps(config, a, [s1], [s2], [s3], [s4], [s5]);
  }

  /** `take_credit` leaves a stale token behind, so that a partition gets a second one. */
  lemma TakeCreditBreaksUniqueness() returns (config: Config, actions: seq<Action>)
    ensures var lanes := Reached(config, actions); |lanes| == 1 && lanes[0].lane.queue == [7, 7]
  {
    config := Config(1, None);
    actions := [NotifyPartition(0, 7, 1), On(0, Put(0)), On(0, TakeDirect(7)), NotifyPartition(0, 7, 1), On(0, Put(0))];
    TwoTokensRun(config, actions);
  }

  lemma Notifies7(config: Config, s: LaneState, s': LaneState)
    requires config == Config(1, None) && s.lane.pending == {} && s.lane.credits == map[] && s.frames == map[]
    requires s' == LaneState(Lane(s.lane.queue, {7}, map[7 := 1]), map[0 := Putting(7)], s.notified + 1, s.returned, s.taken)
    ensures Step(config, [s], NotifyPartition(0, 7, 1)) == [s']
  {
    assert LaneStep(s, Notify(0, 7, 1)) == s';
    OneLane(config, s, NotifyPartition(0, 7, 1), s');
  }

  lemma Puts7(config: Config, s: LaneState, s': LaneState)
    requires config == Config(1, None) && s.frames == map[0 := Putting(7)]
    requires s' == s.(lane := s.lane.(queue := s.lane.queue + [7]), frames := map[])
    ensures Step(config, [s], On(0, Put(0))) == [s']
  {
    assert s.frames - {0} == map[];
    assert LaneStep(s, Put(0)) == s';
    OneLane(config, s, On(0, Put(0)), s');
  }

  lemma Takes7(config: Config, s: LaneState, s': LaneState)
    requires config == Config(1, None) && s.lane.pending == {7} && s.lane.credits == map[7 := 1]
    requires s' == s.(lane := Lane(s.lane.queue, {}, map[]), taken := s.taken + 1)
    ensures Step(config, [s], On(0, TakeDirect(7))) == [s']
  {
    assert LaneStep(s, TakeDirect(7)) == s';
    OneLane(config, s, On(0, TakeDirect(7)), s');
  }

  lemma FiveSteps(config: Config, a: seq<Action>, l1: seq<LaneState>, l2: seq<LaneState>, l3: seq<LaneState>, l4: seq<LaneState>,
                  l5: seq<LaneState>)
    requires |a| == 5 && config.workers == 1
    requires Step(config, [EmptyLane()], a[0]) == l1 && Step(config, l1, a[1]) == l2 && Step(config, l2, a[2]) == l3
    requires Step(config, l3, a[3]) == l4 && Step(config, l4, a[4]) == l5
    ensures Reached(config, a) == l5
  {
    assert Started(config) == [EmptyLane()] && a[..0] == [] && a[..5] == a;
    ReachedNext(config, a, 0);
    ReachedNext(config, a, 1);
    ReachedNext(config, a, 2);
    ReachedNext(config, a, 3);
    ReachedNext(config, a, 4);
  }

  lemma OneLane(config: Config, s: LaneState, a: Action, t: LaneState)
    requires config == Config(1, None)
    requires a.NotifyPartition? ==> t == LaneStep(s, Notify(a.t, a.p, a.count))
    requires a.On? ==> a.worker == 0 && !a.action.Notify? && t == LaneStep(s, a.action)
    ensures Step(config, [s], a) == [t]
  {
  }

  // ------------------------------------------------ the coordinator itself

  /** A lane nobody is in the middle of: every pending partition's token is queued. */
  ghost predicate QuietLane(lane: Lane) {
    PendingIsCredited(lane) && forall p :: p in lane.pending ==> p in lane.queue
  }

  /** Get the next token and run `_take_credit` on it. */
  function GotAndTaken(lane: Lane, maxCredit: int): Lane
    requires lane.queue != []
  {
    var p := lane.queue[0];
    var got := lane.(queue := lane.queue[1..]);
    var after := TakenUpTo(got, p, maxCredit);
    if NeedsRequeue(got, p, maxCredit) then after.(queue := after.queue + [p]) else after
  }

  lemma GotAndTakenStaysQuiet(lane: Lane, maxCredit: int)
    requires QuietLane(lane) && lane.queue != [] && maxCredit > 0
    ensures QuietLane(GotAndTaken(lane, maxCredit))
    ensures Sum(GotAndTaken(lane, maxCredit).credits) + Takes(lane, lane.queue[0], maxCredit) == Sum(lane.credits)
    ensures Takes(lane, lane.queue[0], maxCredit) == 0 ==>
              GotAndTaken(lane, maxCredit).pending == lane.pending
              && |GotAndTaken(lane, maxCredit).queue| == |lane.queue| - 1
  {
    assert lane.queue == [lane.queue[0]] + lane.queue[1..];
    TakeAddsUp(lane.(queue := lane.queue[1..]), lane.queue[0], maxCredit);
  }

  /** Exactly the partitions of the list lost credit, and none gained any. */
  ghost predicate TookFrom(before: map<int, nat>, after: map<int, nat>, partitions: seq<int>) {
    && (forall q :: q in partitions <==> CreditOf(after, q) < CreditOf(before, q))
    && (forall q :: CreditOf(after, q) <= CreditOf(before, q))
  }

  /** One get-and-take changes the credit of its own partition alone. */
  lemma GotAndTakenMoves(lane: Lane, maxCredit: int, q: int)
    requires lane.queue != [] && maxCredit > 0
    ensures CreditOf(GotAndTaken(lane, maxCredit).credits, q)
         == CreditOf(lane.credits, q) - (if q == lane.queue[0] then Takes(lane, q, maxCredit) else 0)
  {
  }

  lemma TookOneMore(first: map<int, nat>, lane: Lane, maxCredit: int, partitions: seq<int>)
    requires TookFrom(first, lane.credits, partitions) && lane.queue != [] && maxCredit > 0
    ensures var p := lane.queue[0];
            TookFrom(first, GotAndTaken(lane, maxCredit).credits,
                     if Takes(lane, p, maxCredit) > 0 then partitions + [p] else partitions)
  {
    var p, after := lane.queue[0], GotAndTaken(lane, maxCredit).credits;
    var longer := if Takes(lane, p, maxCredit) > 0 then partitions + [p] else partitions;
    forall q ensures (q in longer <==> CreditOf(after, q) < CreditOf(first, q)) && CreditOf(after, q) <= CreditOf(first, q) {
      GotAndTakenMoves(lane, maxCredit, q);
      assert q in partitions <==> CreditOf(lane.credits, q) < CreditOf(first, q);
      assert q in partitions + [p] <==> q in partitions || q == p;
    }
  }

  predicate OneGroup(sameGroup: Option<(int, int) -> bool>, partitions: seq<int>) {
    sameGroup.Some? ==> forall i | 0 < i < |partitions| :: sameGroup.value(partitions[0], partitions[i])
  }

  /** Nothing more to take: a limit is reached, no token is left, or the token put back last is of another group. */
  predicate Exhausted(lane: Lane, maxPartitions: int, maxCredit: int, partitions: seq<int>, total: int,
                      sameGroup: Option<(int, int) -> bool>)
    requires partitions != []
  {
    || |partitions| == maxPartitions || total == maxCredit || lane.queue == []
    || (sameGroup.Some? && !sameGroup.value(partitions[0], lane.queue[|lane.queue| - 1]))
  }

  /** The uncontended coordinator: lists of queues, pending sets and credit maps, updated in place. */
  class PartitionWakeCoordinator {
    const config: Config
    var queues: seq<seq<int>>
    var pending: seq<set<int>>
    var credits: seq<map<int, nat>>
    var notifications: nat
    var notifiedJobs: nat

    ghost predicate Sized()
      reads this
    {
      config.workers > 0 && |queues| == |pending| == |credits| == config.workers
    }

    ghost function LaneAt(w: nat): Lane
      reads this
      requires Sized() && w < config.workers
    {
      Lane(queues[w], pending[w], credits[w])
    }

    ghost predicate Valid()
      reads this
    {
      Sized() && forall w :: 0 <= w < config.workers ==> QuietLane(LaneAt(w))
    }

    constructor (config: Config)
      requires config.workers > 0
      ensures Valid() && this.config == config && notifiedJobs == 0
      ensures forall w :: 0 <= w < config.workers ==> LaneAt(w) == Lane([], {}, map[])
    {
      this.config := config;
      queues := seq(config.workers, _ => []);
      pending := seq(config.workers, _ => {});
      credits := seq(config.workers, _ => map[]);
      notifications, notifiedJobs := 0, 0;
    }

    /** Raise a partition's credit and queue its token unless it is already pending. */
    method Raise(w: nat, p: int, count: nat) returns (queued: bool)
      requires Valid() && w < config.workers && count > 0
      modifies `queues, `pending, `credits
      ensures Valid() && (queued <==> p !in old(pending[w]))
      ensures var lane := Credited(old(LaneAt(w)), p, count);
        LaneAt(w) == if queued then lane.(queue := lane.queue + [p]) else lane
      ensures forall v :: 0 <= v < config.workers && v != w ==> LaneAt(v) == old(LaneAt(v))
      ensures Sum(LaneAt(w).credits) == old(Sum(LaneAt(w).credits)) + count
    {
      CreditAddsUp(LaneAt(w), p, count);
      assert QuietLane(LaneAt(w));
      queued := p !in pending[w];
      var raised: map<int, nat> := credits[w][p := CreditOf(credits[w], p) + count];
      credits := credits[w := raised];
      pending := pending[w := pending[w] + {p}];
      if queued { queues := queues[w := queues[w] + [p]]; }
      assert forall v :: 0 <= v < config.workers && v != w ==> LaneAt(v) == old(LaneAt(v));
    }

    method NotifyPartition(p: int, count: int)
      requires Valid()
      modifies this
      ensures Valid()
      ensures Owner(config, p) == (if config.ownerFor.None? then p else config.ownerFor.value(p)) % config.workers
      ensures var w := Owner(config, p);
        && (forall v :: 0 <= v < config.workers && v != w ==> LaneAt(v) == old(LaneAt(v)))
        && Sum(LaneAt(w).credits) == old(Sum(LaneAt(w).credits)) + (if count > 0 then count else 0)
        && CreditOf(LaneAt(w).credits, p) == old(CreditOf(LaneAt(w).credits, p)) + (if count > 0 then count else 0)
      ensures notifiedJobs == old(notifiedJobs) + (if count > 0 then count else 0)
      ensures notifications == old(notifications) + (if count > 0 && p !in old(pending[Owner(config, p)]) then 1 else 0)
    {
      if count <= 0 { return; }
      var queued := Raise(Owner(config, p), p, count);
      label raised:
      notifiedJobs := notifiedJobs + count;
      if queued { notifications := notifications + 1; }
      assert forall v :: 0 <= v < config.workers ==> LaneAt(v) == old@raised(LaneAt(v));
    }

    method ReturnCredit(w: nat, p: int, credit: int)
      requires Valid() && w < config.workers
      modifies `queues, `pending, `credits
      ensures Valid()
      ensures forall v :: 0 <= v < config.workers && v != w ==> LaneAt(v) == old(LaneAt(v))
      ensures Sum(LaneAt(w).credits) == old(Sum(LaneAt(w).credits)) + (if credit > 0 then credit else 0)
      ensures CreditOf(LaneAt(w).credits, p) == old(CreditOf(LaneAt(w).credits, p)) + (if credit > 0 then credit else 0)
    {
      if credit <= 0 { return; }
      var _ := Raise(w, p, credit);
    }

    /** `_take_credit`: the locked region, then the put outside the lock. */
    method TakeCreditUpTo(w: nat, p: int, maxCredit: int) returns (taken: nat)
      requires Sized() && w < config.workers
      modifies this
      ensures Sized() && taken == old(Takes(LaneAt(w), p, maxCredit))
      ensures taken == if maxCredit <= 0 then 0 else Min(old(CreditOf(credits[w], p)), maxCredit)
      ensures CreditOf(credits[w], p) == old(CreditOf(credits[w], p)) - taken
      ensures var after := TakenUpTo(old(LaneAt(w)), p, maxCredit);
        LaneAt(w) == if old(NeedsRequeue(LaneAt(w), p, maxCredit)) then after.(queue := after.queue + [p]) else after
      ensures forall v :: 0 <= v < config.workers && v != w ==> LaneAt(v) == old(LaneAt(v))
      ensures notifiedJobs == old(notifiedJobs)
    {
      if maxCredit <= 0 { return 0; }
      var credit := CreditOf(credits[w], p);
      if credit <= 0 {
        pending := pending[w := pending[w] - {p}];
        credits := credits[w := credits[w] - {p}];
        return 0;
      }
      taken := if credit <= maxCredit then credit else maxCredit;
      var remaining := credit - taken;
      if remaining > 0 {
        var lowered: map<int, nat> := credits[w][p := remaining];
        credits := credits[w := lowered];
        queues := queues[w := queues[w] + [p]];
      } else {
        credits := credits[w := credits[w] - {p}];
        pending := pending[w := pending[w] - {p}];
      }
    }

    /** `take_credit`: pops the credit and leaves the queued token behind. */
    method TakeCredit(w: nat, p: int) returns (taken: nat)
      requires Valid() && w < config.workers
      modifies this
      ensures Valid() && notifiedJobs == old(notifiedJobs)
      ensures taken == old(CreditOf(LaneAt(w).credits, p)) && LaneAt(w) == TakenAll(old(LaneAt(w)), p)
      ensures Sum(LaneAt(w).credits) + taken == old(Sum(LaneAt(w).credits))
      ensures forall v :: 0 <= v < config.workers && v != w ==> LaneAt(v) == old(LaneAt(v))
    {
      SumDrop(credits[w], p);
      taken := CreditOf(credits[w], p);
      pending := pending[w := pending[w] - {p}];
      credits := credits[w := credits[w] - {p}];
      assert forall v :: 0 <= v < config.workers && v != w ==> LaneAt(v) == old(LaneAt(v));
      assert QuietLane(LaneAt(w)) by { assert QuietLane(old(LaneAt(w))); }
    }

    /** Get one token and take credit for it. */
    method GetAndTake(w: nat, maxCredit: int) returns (p: int, taken: nat)
      requires Valid() && w < config.workers && queues[w] != [] && maxCredit > 0
      modifies this
      ensures Valid() && notifiedJobs == old(notifiedJobs)
      ensures p == old(queues[w][0]) && taken == old(Takes(LaneAt(w), queues[w][0], maxCredit))
      ensures LaneAt(w) == GotAndTaken(old(LaneAt(w)), maxCredit)
      ensures Sum(LaneAt(w).credits) + taken == old(Sum(LaneAt(w).credits))
      ensures forall v :: 0 <= v < config.workers && v != w ==> LaneAt(v) == old(LaneAt(v))
    {
      GotAndTakenStaysQuiet(LaneAt(w), maxCredit);
      p := queues[w][0];
      queues := queues[w := queues[w][1..]];
      taken := TakeCreditUpTo(w, p, maxCredit);
      assert forall v :: 0 <= v < config.workers && v != w ==> LaneAt(v) == old(LaneAt(v));
    }

    /** The first loop of `next_partitions`: get tokens until one has credit.  `None` is `queue.Empty`. */
    method FirstPartition(w: nat, waits: bool, patience: nat, maxCredit: int) returns (r: Option<(seq<int>, int)>)
      requires Valid() && w < config.workers && maxCredit > 0
      modifies this
      ensures Valid() && notifiedJobs == old(notifiedJobs)
      ensures forall v :: 0 <= v < config.workers && v != w ==> LaneAt(v) == old(LaneAt(v))
      ensures r.Some? ==>
        && |r.value.0| <= 1 && 0 <= r.value.1 <= maxCredit && (r.value.1 > 0 <==> r.value.0 != [])
        && Sum(LaneAt(w).credits) + r.value.1 == old(Sum(LaneAt(w).credits))
      ensures r.Some? ==> TookFrom(old(credits[w]), credits[w], r.value.0)
      ensures r.None? ==> waits && LaneAt(w).queue == [] && LaneAt(w).credits == old(LaneAt(w).credits)
      ensures waits && patience >= |old(queues[w])| && old(pending[w]) != {} ==> r.Some? && r.value.1 > 0
    {
      var left := patience;
      while true
        invariant Valid() && notifiedJobs == old(notifiedJobs)
        invariant forall v :: 0 <= v < config.workers && v != w ==> LaneAt(v) == old(LaneAt(v))
        invariant credits[w] == old(credits[w]) && pending[w] == old(pending[w])
        invariant patience >= |old(queues[w])| ==> left >= |queues[w]|
        decreases |queues[w]|
      {
        assert QuietLane(LaneAt(w));
        if queues[w] == [] {
          if pending[w] != {} {
            var _ := Member(pending[w]);
            assert false;
          }
          if !waits { return Some(([], 0)); }
          return None;
        }
        GotAndTakenStaysQuiet(LaneAt(w), maxCredit);
        ghost var before := LaneAt(w);
        assert TookFrom(old(credits[w]), before.credits, []);
        TookOneMore(old(credits[w]), before, maxCredit, []);
        assert [] + [before.queue[0]] == [before.queue[0]];
        var p, credit := GetAndTake(w, maxCredit);
        if credit > 0 { return Some(([p], credit)); }
        assert credits[w] == before.credits by { assert p !in before.credits; }
        if !waits || left == 0 { return Some(([], 0)); }
        left := left - 1;
      }
    }

    /**
     `next_partitions` without contention.  `patience` counts the gets that
     find no credit before the deadline passes.
     */
    method NextPartitions(w: nat, waits: bool, patience: nat, maxPartitions: int, maxCredit: int,
                          sameGroup: Option<(int, int) -> bool>)
      returns (r: Option<(seq<int>, int)>)
      requires Valid() && w < config.workers
      modifies this
      ensures Valid() && notifiedJobs == old(notifiedJobs)
      ensures forall v :: 0 <= v < config.workers && v != w ==> LaneAt(v) == old(LaneAt(v))
      ensures maxPartitions <= 0 || maxCredit <= 0 ==> r == Some(([], 0)) && LaneAt(w) == old(LaneAt(w))
      ensures maxPartitions > 0 && maxCredit > 0 && r.Some? ==>
        && |r.value.0| <= maxPartitions && 0 <= r.value.1 <= maxCredit && (r.value.1 > 0 <==> r.value.0 != [])
        && Sum(LaneAt(w).credits) + r.value.1 == old(Sum(LaneAt(w).credits))
      ensures r.Some? ==> TookFrom(old(credits[w]), credits[w], r.value.0) && OneGroup(sameGroup, r.value.0)
      ensures r.Some? && r.value.0 != [] ==>
        Exhausted(LaneAt(w), maxPartitions, maxCredit, r.value.0, r.value.1, sameGroup)
      ensures r.None? ==> waits && LaneAt(w).queue == [] && LaneAt(w).credits == old(LaneAt(w).credits)
      ensures waits && patience >= |old(queues[w])| && old(pending[w]) != {} && maxPartitions > 0 && maxCredit > 0
              ==> r.Some? && r.value.1 > 0
    {
      if maxPartitions <= 0 || maxCredit <= 0 { return Some(([], 0)); }
      r := FirstPartition(w, waits, patience, maxCredit);
      if r.None? || r.value.0 == [] { return r; }
      var partitions, total := MorePartitions(w, old(credits[w]), r.value.0, r.value.1, maxPartitions, maxCredit, sameGroup);
      return Some((partitions, total));
    }

    /** Get one more token: the batch grows by its partition, or the token had no credit and is gone. */
    method TakeMore(w: nat, ghost first: map<int, nat>, partitions: seq<int>, total: int, maxCredit: int)
      returns (longer: seq<int>, more: int)
      requires Valid() && w < config.workers && queues[w] != [] && 0 < total < maxCredit
      requires TookFrom(first, credits[w], partitions)
      modifies this
      ensures Valid() && notifiedJobs == old(notifiedJobs)
      ensures forall v :: 0 <= v < config.workers && v != w ==> LaneAt(v) == old(LaneAt(v))
      ensures TookFrom(first, credits[w], longer) && Sum(credits[w]) + more == old(Sum(credits[w])) + total
      ensures || (longer == partitions && more == total && |queues[w]| < |old(queues[w])|)
              || (longer == partitions + [old(queues[w][0])] && total < more <= maxCredit)
    {
      GotAndTakenStaysQuiet(LaneAt(w), maxCredit - total);
      TookOneMore(first, LaneAt(w), maxCredit - total, partitions);
      var p, credit := GetAndTake(w, maxCredit - total);
      if credit > 0 { return partitions + [p], total + credit; }
      return partitions, total;
    }

    /** The second loop of `next_partitions`. */
    method MorePartitions(w: nat, ghost first: map<int, nat>, start: seq<int>, startTotal: int, maxPartitions: int, maxCredit: int,
                          sameGroup: Option<(int, int) -> bool>)
      returns (partitions: seq<int>, total: int)
      requires Valid() && w < config.workers && 0 < |start| <= maxPartitions && 0 < startTotal <= maxCredit
      requires TookFrom(first, credits[w], start) && OneGroup(sameGroup, start)
      modifies this
      ensures Valid() && notifiedJobs == old(notifiedJobs)
      ensures forall v :: 0 <= v < config.workers && v != w ==> LaneAt(v) == old(LaneAt(v))
      ensures 0 < |partitions| <= maxPartitions && 0 < total <= maxCredit
      ensures Sum(credits[w]) + total == old(Sum(credits[w])) + startTotal
      ensures TookFrom(first, credits[w], partitions) && OneGroup(sameGroup, partitions)
      ensures Exhausted(LaneAt(w), maxPartitions, maxCredit, partitions, total, sameGroup)
    {
      partitions, total := start, startTotal;
      while |partitions| < maxPartitions && total < maxCredit
        invariant Valid() && notifiedJobs == old(notifiedJobs)
        invariant forall v :: 0 <= v < config.workers && v != w ==> LaneAt(v) == old(LaneAt(v))
        invariant 0 < |partitions| <= maxPartitions && 0 < total <= maxCredit && OneGroup(sameGroup, partitions)
        invariant Sum(credits[w]) + total == old(Sum(credits[w])) + startTotal
        invariant TookFrom(first, credits[w], partitions)
        decreases maxPartitions - |partitions|, |queues[w]|
      {
        if queues[w] == [] { break; }
        if sameGroup.Some? && !sameGroup.value(partitions[0], queues[w][0]) {
          PutBack(w);
          break;
        }
        partitions, total := TakeMore(w, first, partitions, total, maxCredit);
      }
    }

    /** A token of another group goes to the end of the queue. */
    method PutBack(w: nat)
      requires Valid() && w < config.workers && queues[w] != []
      modifies this
      ensures Valid() && notifiedJobs == old(notifiedJobs)
      ensures LaneAt(w) == old(LaneAt(w)).(queue := old(queues[w])[1..] + [old(queues[w])[0]])
      ensures forall v :: 0 <= v < config.workers && v != w ==> LaneAt(v) == old(LaneAt(v))
    {
      assert QuietLane(LaneAt(w));
      ghost var q := queues[w];
      assert q == [q[0]] + q[1..];
      queues := queues[w := queues[w][1..] + [queues[w][0]]];
      assert QuietLane(LaneAt(w));
      assert forall v :: 0 <= v < config.workers && v != w ==> LaneAt(v) == old(LaneAt(v));
    }

    /** `worker_credit`: the sum over the credit map. */
    method WorkerCredit(w: nat) returns (total: nat)
      requires Sized() && w < config.workers
      ensures total == Sum(credits[w])
    {
      total := 0;
      var rest := credits[w];
      while rest.Keys != {}
        invariant total + Sum(rest) == Sum(credits[w])
        decreases |rest|
      {
        ghost var q := Member(rest.Keys);
        var p :| p in rest.Keys;
        SumRemove(rest, p);
        total := total + rest[p];
        rest := rest - {p};
      }
    }
  }
}
