/**
 The adaptive producer limiter `AdaptiveProducerBackpressure`: a token bucket
 whose rate is cut under latency pressure, raised when pressure is low, and
 lifted altogether at the release cap.  Floats are modelled as reals and clock
 readings are inputs.
 */
module RateLimiter {
  import opened Common
  import Runs

  datatype Config = Config(enabled: bool, target: real, minRate: real, maxRate: real, decrease: real, increase: real)

  function Greater(x: real, y: real): real { if x >= y then x else y }
  function Lesser(x: real, y: real): real { if x <= y then x else y }

  /** The constructor clamps its arguments. */
  function Configured(enabled: bool, target: real, minRate: real, maxRate: real, decrease: real, increase: real): (c: Config)
    ensures ConfigOk(c) && c.enabled == enabled
    ensures c.target == target || (target < 1.0 && c.target == 1.0)
    ensures c.minRate == minRate || (minRate < 1.0 && c.minRate == 1.0)
    ensures c.maxRate == maxRate || (maxRate < 0.0 && c.maxRate == 0.0)
    ensures c.decrease == decrease || (decrease < 0.1 && c.decrease == 0.1) || (decrease > 0.99 && c.decrease == 0.99)
    ensures c.increase == increase || (increase < 1.01 && c.increase == 1.01)
  {
    Config(enabled, Greater(target, 1.0), Greater(minRate, 1.0), Greater(maxRate, 0.0), Lesser(Greater(decrease, 0.1), 0.99), Greater(increase, 1.01))
  }

  predicate ConfigOk(c: Config) {
    c.target >= 1.0 && c.minRate >= 1.0 && c.maxRate >= 0.0 && 0.1 <= c.decrease <= 0.99 && c.increase >= 1.01
  }

  /** The rate at which the limit is lifted. */
  function Cap(c: Config): real {
    if c.maxRate > 0.0 then c.maxRate else Greater(c.minRate * 8.0, 100000.0)
  }

  datatype Bucket = Bucket(rate: Option<real>, tokens: real, updatedAt: real, ewma: real, limitedBatches: nat)

  function Fresh(now: real): Bucket {
    Bucket(None, 0.0, now, 0.0, 0)
  }

  // ------------------------------------------------ the locked regions

  function Smoothed(b: Bucket, sample: real): real {
    if b.ewma <= 0.0 then sample else b.ewma * 0.85 + sample * 0.15
  }

  predicate HighPressure(c: Config, b: Bucket, sample: real) {
    sample > c.target * 1.25 || Smoothed(b, sample) > c.target
  }

  predicate LowPressure(c: Config, b: Bucket, sample: real) {
    !HighPressure(c, b, sample) && Smoothed(b, sample) < c.target * 0.6
  }

  function Lowered(c: Config, rate: Option<real>): real {
    Greater(c.minRate, (if rate.Some? then rate.value else Cap(c)) * c.decrease)
  }

  function Raised(c: Config, rate: real): real {
    rate * c.increase
  }

  /** One observation, given the mean of its samples. */
  function Observed(c: Config, b: Bucket, sample: real): Bucket {
    var b' := b.(ewma := Smoothed(b, sample));
    if HighPressure(c, b, sample) then
      var rate := Lowered(c, b.rate);
      b'.(rate := Some(rate), tokens := Lesser(b.tokens, rate * 0.05), limitedBatches := b.limitedBatches + 1)
    else if LowPressure(c, b, sample) && b.rate.Some? then
      var next := Raised(c, b.rate.value);
      if next >= Cap(c) then b'.(rate := None, tokens := 0.0) else b'.(rate := Some(next))
    else b'
  }

  function Elapsed(b: Bucket, now: real): real {
    Greater(now - b.updatedAt, 0.0)
  }

  function Refilled(b: Bucket, now: real): Bucket
    requires b.rate.Some?
  {
    b.(updatedAt := now, tokens := Lesser(b.rate.value * 0.25, b.tokens + Elapsed(b, now) * b.rate.value))
  }

  /** Whether one pass of `wait_for_creates` lets `count` creates through. */
  predicate Grants(b: Bucket, now: real, count: nat) {
    b.rate.None? || Refilled(b, now).tokens >= count as real
  }

  function Attempted(b: Bucket, now: real, count: nat): Bucket {
    if b.rate.None? then b
    else
      var b' := Refilled(b, now);
      if Grants(b, now, count) then b'.(tokens := b'.tokens - count as real) else b'
  }

  /** The exponential average: the first sample as it is, later ones with a weight of 15 percent. */
  predicate AverageOf(ewma: real, before: real, sample: real) {
    ewma == if before <= 0.0 then sample else before + (sample - before) * 0.15
  }

  /**
   What one observation does.  A sample a quarter above the target, or an average
   above it, cuts the rate by the decrease ratio, not below the minimum, and the
   tokens to a twentieth of it.  An average below six tenths of the target raises
   a limited rate by the increase ratio, or lifts the limit once that reaches the
   configured maximum or, without one, eight times the minimum and at least
   100000.  Otherwise rate and tokens stay.
   */
  lemma ObserveAnswers(c: Config, b: Bucket, sample: real)
    ensures var d := Observed(c, b, sample);
            var high, low := sample > c.target * 1.25 || d.ewma > c.target, d.ewma < c.target * 0.6;
            && AverageOf(d.ewma, b.ewma, sample) && d.updatedAt == b.updatedAt
            && (high ==> && d.rate.Some? && CutFrom(c, d.rate.value, BaseRate(c, b))
                         && (d.tokens == b.tokens || d.tokens == d.rate.value * 0.05) && d.tokens <= b.tokens
                         && d.tokens <= d.rate.value * 0.05 && d.limitedBatches == b.limitedBatches + 1)
            && (!high ==> d.limitedBatches == b.limitedBatches)
            && (!high && low && b.rate.Some? ==>
                  if ReachesRelease(c, b.rate.value * c.increase) then d.rate.None? && d.tokens == 0.0
                  else d.rate == Some(b.rate.value * c.increase) && d.tokens == b.tokens)
            && (!high && !(low && b.rate.Some?) ==> d.rate == b.rate && d.tokens == b.tokens)
  {
    if b.rate.Some? {
      var next := Raised(c, b.rate.value);
      assert next == b.rate.value * c.increase;
      assert next >= Cap(c) <==> ReachesRelease(c, next);
    }
  }

  /** The rate a cut starts from: the current one, the configured maximum, or the release rate. */
  function BaseRate(c: Config, b: Bucket): real {
    if b.rate.Some? then b.rate.value
    else if c.maxRate > 0.0 then c.maxRate
    else if c.minRate * 8.0 >= 100000.0 then c.minRate * 8.0 else 100000.0
  }

  predicate CutFrom(c: Config, rate: real, base: real) {
    rate >= c.minRate && rate >= base * c.decrease && (rate == c.minRate || rate == base * c.decrease)
  }

  predicate ReachesRelease(c: Config, rate: real) {
    if c.maxRate > 0.0 then rate >= c.maxRate else rate >= c.minRate * 8.0 && rate >= 100000.0
  }

  /** One pass under a limit: tokens accrue up to a quarter of the rate, and the request is taken out exactly when they cover it. */
  lemma AttemptAnswers(b: Bucket, now: real, count: nat, rate: real, available: real)
    requires b.rate == Some(rate)
    requires available <= rate * 0.25 && available <= b.tokens + (if now > b.updatedAt then (now - b.updatedAt) * rate else 0.0)
    requires available == rate * 0.25 || available == b.tokens + (if now > b.updatedAt then (now - b.updatedAt) * rate else 0.0)
    ensures Grants(b, now, count) <==> available >= count as real
    ensures Attempted(b, now, count)
         == b.(updatedAt := now, tokens := if available >= count as real then available - count as real else available)
  {
    if now <= b.updatedAt { assert Elapsed(b, now) * rate == 0.0; }
  }

  // ------------------------------------------------ every run

  datatype Event = Observe(sample: real) | Attempt(now: real, count: nat)

  /** The bucket with two running totals: creates granted under a limit, and rate times elapsed. */
  datatype Ledger = Ledger(bucket: Bucket, granted: real, accrued: real)

  function Step(c: Config, l: Ledger, e: Event): Ledger {
    if !c.enabled then l
    else
      match e
      case Observe(sample) => l.(bucket := Observed(c, l.bucket, sample))
      case Attempt(now, count) =>
        if count == 0 || l.bucket.rate.None? then l
        else Ledger(Attempted(l.bucket, now, count),
                    l.granted + (if Grants(l.bucket, now, count) then count as real else 0.0),
                    l.accrued + Elapsed(l.bucket, now) * l.bucket.rate.value)
  }

  function Stepper(c: Config): (Ledger, Event) -> Ledger {
    (l: Ledger, e: Event) => Step(c, l, e)
  }

  /** Tokens stay between nothing and a quarter of the current rate; no limit, no tokens. */
  predicate BucketOk(c: Config, b: Bucket) {
    match b.rate
    case None => b.tokens == 0.0
    case Some(rate) => c.minRate <= rate && 0.0 <= b.tokens <= rate * 0.25
  }

  predicate BelowCap(c: Config, b: Bucket) {
    b.rate.Some? ==> b.rate.value < Cap(c)
  }

  lemma Product(x: real, y: real)
    requires x >= 0.0 && y >= 0.0
    ensures x * y >= 0.0
  {
  }

  lemma CutIsBelow(x: real, ratio: real)
    requires x > 0.0 && 0.1 <= ratio <= 0.99
    ensures 0.0 < x * ratio < x
  {
    Product(x, ratio - 0.1);
    Product(x, 0.99 - ratio);
  }

  lemma RaiseIsAbove(x: real, least: real, ratio: real)
    requires x >= least > 0.0 && ratio >= 1.01
    ensures x * ratio >= x + least * (ratio - 1.0) >= x + least * 0.01
  {
    Product(x - least, ratio - 1.0);
    Product(least, ratio - 1.01);
  }

  lemma ObserveKeepsBucket(c: Config, b: Bucket, sample: real)
    requires ConfigOk(c) && BucketOk(c, b)
    ensures BucketOk(c, Observed(c, b, sample))
  {
    if b.rate.Some? { RaiseIsAbove(b.rate.value, c.minRate, c.increase); }
  }

  lemma AttemptKeepsBucket(c: Config, b: Bucket, now: real, count: nat)
    requires ConfigOk(c) && BucketOk(c, b)
    ensures BucketOk(c, Attempted(b, now, count))
  {
    if b.rate.Some? { Product(Elapsed(b, now), b.rate.value); }
  }

  lemma StepKeepsBucket(c: Config, l: Ledger, e: Event)
    requires ConfigOk(c) && BucketOk(c, l.bucket)
    ensures BucketOk(c, Step(c, l, e).bucket)
  {
    match e
    case Observe(sample) => ObserveKeepsBucket(c, l.bucket, sample);
    case Attempt(now, count) => AttemptKeepsBucket(c, l.bucket, now, count);
  }

  lemma CutIsBelowCap(c: Config, base: real)
    requires ConfigOk(c) && 0.0 < base <= Cap(c)
    ensures base * c.decrease < Cap(c)
  {
    CutIsBelow(base, c.decrease);
  }

  lemma LoweredIsBelowCap(c: Config, rate: Option<real>)
    requires ConfigOk(c) && c.minRate < Cap(c)
    requires rate.Some? ==> 0.0 < rate.value < Cap(c)
    ensures Lowered(c, rate) < Cap(c)
  {
    CutIsBelowCap(c, if rate.Some? then rate.value else Cap(c));
  }

  lemma StepKeepsBelowCap(c: Config, l: Ledger, e: Event)
    requires ConfigOk(c) && BelowCap(c, l.bucket) && c.minRate < Cap(c)
    requires BucketOk(c, l.bucket)
    ensures BelowCap(c, Step(c, l, e).bucket)
  {
    LoweredIsBelowCap(c, l.bucket.rate);
  }

  /** What was granted since `start`, plus what is left, was there at the start or accrued since. */
  predicate Covered(c: Config, start: Ledger, l: Ledger) {
    && BucketOk(c, l.bucket)
    && (l.granted - start.granted) + l.bucket.tokens <= start.bucket.tokens + (l.accrued - start.accrued)
  }

  lemma StepKeepsCovered(c: Config, start: Ledger, l: Ledger, e: Event)
    requires ConfigOk(c) && Covered(c, start, l)
    ensures Covered(c, start, Step(c, l, e))
  {
    StepKeepsBucket(c, l, e);
    if e.Attempt? && l.bucket.rate.Some? { Product(Elapsed(l.bucket, e.now), l.bucket.rate.value); }
  }

  /**
   From any legal state, over every run of observations and attempts: tokens
   stay within a quarter of the rate, the rate stays at or above the minimum,
   and the creates granted never exceed the starting tokens plus the sum of rate
   times elapsed time.
   */
  lemma GrantsAreCovered(c: Config, start: Ledger, events: seq<Event>)
    requires ConfigOk(c) && BucketOk(c, start.bucket)
    ensures Covered(c, start, Runs.Run(Stepper(c), start, events))
  {
    forall l, e | Covered(c, start, l) ensures Covered(c, start, Stepper(c)(l, e)) {
      StepKeepsCovered(c, start, l, e);
    }
    Runs.RunInvariant(Stepper(c), l => Covered(c, start, l), start, events);
  }

  ghost predicate AlwaysBelowCap(c: Config) {
    forall now, events :: BelowCap(c, Runs.Run(Stepper(c), Ledger(Fresh(now), 0.0, 0.0), events).bucket)
  }

  /** A limited rate stays strictly below the release cap in every run exactly when the minimum rate does. */
  lemma BelowCapIffMinimumIs(c: Config)
    requires ConfigOk(c) && c.enabled
    ensures AlwaysBelowCap(c) <==> c.minRate < Cap(c)
  {
    if c.minRate < Cap(c) {
      forall now, events ensures BelowCap(c, Runs.Run(Stepper(c), Ledger(Fresh(now), 0.0, 0.0), events).bucket) {
        forall l: Ledger, e: Event | BucketOk(c, l.bucket) && BelowCap(c, l.bucket)
          ensures BucketOk(c, Stepper(c)(l, e).bucket) && BelowCap(c, Stepper(c)(l, e).bucket)
        {
          StepKeepsBucket(c, l, e);
          StepKeepsBelowCap(c, l, e);
        }
        Runs.RunInvariant(Stepper(c), (l: Ledger) => BucketOk(c, l.bucket) && BelowCap(c, l.bucket),
                          Ledger(Fresh(now), 0.0, 0.0), events);
      }
    } else {
      var start := Ledger(Fresh(0.0), 0.0, 0.0);
      var surge := Observe(c.target * 1.25 + 1.0);
      Runs.RunOfOne(Stepper(c), start, surge);
      assert !BelowCap(c, Runs.Run(Stepper(c), start, [surge]).bucket);
    }
  }

  /** A request larger than a quarter of the rate waits for ever at that rate; a smaller one does not. */
  lemma GrantableIffWithinBurst(c: Config, b: Bucket, count: nat)
    requires ConfigOk(c) && BucketOk(c, b) && b.rate.Some?
    ensures (exists now :: Grants(b, now, count)) <==> count as real <= b.rate.value * 0.25
  {
    var rate := b.rate.value;
    if count as real <= rate * 0.25 {
      var now := b.updatedAt + 0.25;
      assert Elapsed(b, now) * rate == 0.25 * rate;
      assert Grants(b, now, count);
    }
  }

  // ------------------------------------------------ the limit is lifted

  /** The samples of a run of observations, one after the other. */
  function ObservedAll(c: Config, b: Bucket, samples: seq<real>): Bucket
    decreases |samples|
  {
    if samples == [] then b else ObservedAll(c, Observed(c, b, samples[0]), samples[1..])
  }

  /** While samples stay below the level, the smoothed latency is at or below it, or falls by a fixed amount. */
  lemma SmoothedFalls(b: Bucket, sample: real, level: real, quiet: real)
    requires sample <= quiet < level
    ensures Smoothed(b, sample) <= Greater(quiet, b.ewma)
    ensures b.ewma <= level ==> Smoothed(b, sample) <= level
    ensures b.ewma > level ==> Smoothed(b, sample) <= Greater(quiet, b.ewma - 0.15 * (level - quiet))
  {
  }

  /** Phase one: after enough quiet samples the smoothed latency is below the level for good. */
  lemma {:induction false} LatencyCalms(c: Config, b: Bucket, samples: seq<real>, level: real, quiet: real, drop: real)
    requires ConfigOk(c) && BucketOk(c, b) && quiet < level
    requires forall i :: 0 <= i < |samples| ==> samples[i] <= quiet
    requires drop == 0.15 * (level - quiet) && |samples| as real * drop >= b.ewma - level
    ensures BucketOk(c, ObservedAll(c, b, samples)) && ObservedAll(c, b, samples).ewma <= level
    decreases |samples|
  {
    if samples != [] {
      var b' := Observed(c, b, samples[0]);
      ObserveKeepsBucket(c, b, samples[0]);
      SmoothedFalls(b, samples[0], level, quiet);
      var rest := samples[1..];
      assert |samples| as real * drop == |rest| as real * drop + drop;
      Product(|rest| as real, drop);
      LatencyCalms(c, b', rest, level, quiet, drop);
    }
  }

  /** Phase two: under calm latency every observation raises the rate by a fixed amount until it is lifted. */
  lemma {:induction false} CalmLiftsTheLimit(c: Config, b: Bucket, samples: seq<real>, quiet: real, level: real, gain: real)
    requires ConfigOk(c) && BucketOk(c, b) && quiet < level < c.target * 0.6 && b.ewma <= level
    requires forall i :: 0 <= i < |samples| ==> samples[i] <= quiet
    requires gain == c.minRate * (c.increase - 1.0)
    requires b.rate.Some? ==> |samples| as real * gain > Cap(c) - b.rate.value
    requires b.rate.Some? ==> samples != []
    ensures ObservedAll(c, b, samples).rate.None?
    decreases |samples|
  {
    if samples != [] {
      var b' := Observed(c, b, samples[0]);
      ObserveKeepsBucket(c, b, samples[0]);
      SmoothedFalls(b, samples[0], level, quiet);
      assert !HighPressure(c, b, samples[0]);
      var rest := samples[1..];
      if b.rate.Some? {
        RaiseIsAbove(b.rate.value, c.minRate, c.increase);
        assert |samples| as real * gain == |rest| as real * gain + gain;
      }
      CalmLiftsTheLimit(c, b', rest, quiet, level, gain);
    }
  }

  lemma {:induction false} ObservedAllComposes(c: Config, b: Bucket, first: seq<real>, second: seq<real>)
    ensures ObservedAll(c, b, first + second) == ObservedAll(c, ObservedAll(c, b, first), second)
    decreases |first|
  {
    if first == [] {
      assert first + second == second;
    } else {
      assert (first + second)[1..] == first[1..] + second;
      ObservedAllComposes(c, Observed(c, b, first[0]), first[1..], second);
    }
  }

  /** Halfway between the quiet level and the low-pressure mark. */
  function Halfway(c: Config, quiet: real): real {
    (quiet + c.target * 0.6) * 0.5
  }

  lemma Settles(c: Config, b: Bucket, samples: seq<real>, quiet: real, drop: real)
    requires ConfigOk(c) && BucketOk(c, b) && quiet < c.target * 0.6
    requires forall i :: 0 <= i < |samples| ==> samples[i] <= quiet
    requires drop == 0.075 * (c.target * 0.6 - quiet) && |samples| as real * drop >= b.ewma - quiet
    ensures BucketOk(c, ObservedAll(c, b, samples)) && ObservedAll(c, b, samples).ewma <= Halfway(c, quiet)
  {
    LatencyCalms(c, b, samples, Halfway(c, quiet), quiet, drop);
  }

  lemma Climbs(c: Config, b: Bucket, samples: seq<real>, quiet: real, gain: real)
    requires ConfigOk(c) && BucketOk(c, b) && quiet < c.target * 0.6 && b.ewma <= Halfway(c, quiet)
    requires forall i :: 0 <= i < |samples| ==> samples[i] <= quiet
    requires gain == c.minRate * (c.increase - 1.0) && samples != [] && |samples| as real * gain > Cap(c)
    ensures ObservedAll(c, b, samples).rate.None?
  {
    CalmLiftsTheLimit(c, b, samples, quiet, Halfway(c, quiet), gain);
  }

  /**
   From any legal state, a run of quiet samples lifts the limit within a number
   of observations fixed beforehand: the first few bring the smoothed latency
   down by `drop` each, the others take the rate from wherever it is to the
   release cap by `gain` each.
   */
  lemma QuietRunLiftsTheLimit(c: Config, b: Bucket, settle: seq<real>, climb: seq<real>, quiet: real,
                              drop: real, gain: real)
    requires ConfigOk(c) && BucketOk(c, b) && quiet < c.target * 0.6
    requires forall i :: 0 <= i < |settle| ==> settle[i] <= quiet
    requires forall i :: 0 <= i < |climb| ==> climb[i] <= quiet
    requires drop == 0.075 * (c.target * 0.6 - quiet) && |settle| as real * drop >= b.ewma - quiet
    requires gain == c.minRate * (c.increase - 1.0) && climb != [] && |climb| as real * gain > Cap(c)
    ensures ObservedAll(c, b, settle + climb).rate.None?
  {
    Settles(c, b, settle, quiet, drop);
    ObservedAllComposes(c, b, settle, climb);
    Climbs(c, ObservedAll(c, b, settle), climb, quiet, gain);
  }

  lemma SurgeLowers(c: Config, b: Bucket, sample: real, loss: real)
    requires ConfigOk(c) && BucketOk(c, b) && sample > c.target * 1.25 && loss == c.minRate * (1.0 - c.decrease)
    ensures loss >= 0.0
    ensures var d := Observed(c, b, sample);
            BucketOk(c, d) && d.rate.Some? && d.rate.value <= Greater(c.minRate, BaseRate(c, b) - loss)
  {
    ObserveKeepsBucket(c, b, sample);
    ObserveAnswers(c, b, sample);
    CutIsBounded(c, BaseRate(c, b), Observed(c, b, sample).rate.value, loss);
  }

  lemma CutIsBounded(c: Config, base: real, rate: real, loss: real)
    requires ConfigOk(c) && base > 0.0 && CutFrom(c, rate, base) && loss == c.minRate * (1.0 - c.decrease)
    ensures loss >= 0.0 && rate <= Greater(c.minRate, base - loss)
  {
    Product(c.minRate, 1.0 - c.decrease);
    CutIsBelow(base, c.decrease);
    if base >= c.minRate { CutLoses(c, base); }
  }

  lemma OneFewer(n: nat, loss: real)
    requires n > 0 && loss >= 0.0
    ensures n as real * loss == (n - 1) as real * loss + loss && (n - 1) as real * loss >= 0.0
  {
    Product((n - 1) as real, loss);
  }

  /**
   And a run of surges, samples a quarter above the target, brings the rate down to
   the minimum within a number of observations fixed beforehand, `loss` each.
   */
  lemma {:induction false} SurgeReachesMinimum(c: Config, b: Bucket, samples: seq<real>, loss: real)
    requires ConfigOk(c) && BucketOk(c, b) && (samples == [] ==> b.rate.Some?)
    requires forall i :: 0 <= i < |samples| ==> samples[i] > c.target * 1.25
    requires loss == c.minRate * (1.0 - c.decrease) && |samples| as real * loss >= BaseRate(c, b) - c.minRate
    ensures ObservedAll(c, b, samples).rate == Some(c.minRate)
    decreases |samples|
  {
    if samples != [] {
      SurgeLowers(c, b, samples[0], loss);
      OneFewer(|samples|, loss);
      SurgeReachesMinimum(c, Observed(c, b, samples[0]), samples[1..], loss);
    }
  }

  lemma CutLoses(c: Config, base: real)
    requires ConfigOk(c) && base >= c.minRate
    ensures base * c.decrease <= base - c.minRate * (1.0 - c.decrease)
  {
    Product(base - c.minRate, 1.0 - c.decrease);
  }

  // ------------------------------------------------ the limiter itself

  function Total(xs: seq<real>): real {
    if xs == [] then 0.0 else Total(xs[..|xs| - 1]) + xs[|xs| - 1]
  }

  function Mean(xs: seq<real>): real
    requires xs != []
  {
    Total(xs) / |xs| as real
  }

  method MeanOf(xs: seq<real>) returns (mean: real)
    requires xs != []
    ensures mean == Mean(xs)
  {
    var sum := 0.0;
    for i := 0 to |xs|
      invariant sum == Total(xs[..i])
    {
      assert xs[..i + 1][..i] == xs[..i];
      sum := sum + xs[i];
    }
    assert xs[..|xs|] == xs;
    mean := sum / |xs| as real;
  }

  /** `wait_for_creates` at the given clock readings: the bucket left, and whether it returned. */
  function Waited(b: Bucket, clock: seq<real>, count: nat): (Bucket, bool)
    decreases |clock|
  {
    if b.rate.None? then (b, true)
    else if clock == [] then (b, false)
    else if Grants(b, clock[0], count) then (Attempted(b, clock[0], count), true)
    else Waited(Attempted(b, clock[0], count), clock[1..], count)
  }

  /** While nobody changes the rate, a request above a quarter of it never returns, whatever the clock does. */
  lemma {:induction false} OversizedRequestNeverReturns(c: Config, b: Bucket, clock: seq<real>, count: nat)
    requires ConfigOk(c) && BucketOk(c, b) && b.rate.Some? && count as real > b.rate.value * 0.25
    ensures !Waited(b, clock, count).1
    decreases |clock|
  {
    if clock != [] {
      var b' := Attempted(b, clock[0], count);
      AttemptKeepsBucket(c, b, clock[0], count);
      OversizedRequestNeverReturns(c, b', clock[1..], count);
    }
  }

  /** A request within a quarter of the rate returns by the first reading a quarter of a second after the last pass. */
  lemma PatientRequestReturns(c: Config, b: Bucket, clock: seq<real>, count: nat, rate: real)
    requires ConfigOk(c) && BucketOk(c, b) && b.rate == Some(rate) && count as real <= rate * 0.25
    requires clock != [] && clock[0] >= b.updatedAt + 0.25
    ensures Waited(b, clock, count) == (b.(updatedAt := clock[0], tokens := rate * 0.25 - count as real), true)
  {
    Product(clock[0] - b.updatedAt - 0.25, rate);
    AttemptAnswers(b, clock[0], count, rate, rate * 0.25);
  }

  /** Without a limit nobody waits. */
  lemma UnlimitedReturns(b: Bucket, clock: seq<real>, count: nat)
    requires b.rate.None?
    ensures Waited(b, clock, count) == (b, true)
  {
  }

  class AdaptiveProducerBackpressure {
    const config: Config
    var ratePerSec: Option<real>
    var tokens: real
    var updatedAt: real
    var latencyEwma: real
    var limitedBatches: nat
    var waits: nat

    ghost function View(): Bucket
      reads this
    {
      Bucket(ratePerSec, tokens, updatedAt, latencyEwma, limitedBatches)
    }

    ghost predicate Valid()
      reads this
    {
      ConfigOk(config) && BucketOk(config, View())
    }

    constructor (enabled: bool, target: real, minRate: real, maxRate: real, decrease: real, increase: real, now: real)
      ensures Valid() && View() == Fresh(now)
      ensures config == Configured(enabled, target, minRate, maxRate, decrease, increase)
    {
      config := Configured(enabled, target, minRate, maxRate, decrease, increase);
      ratePerSec, tokens, updatedAt, latencyEwma, limitedBatches, waits := None, 0.0, now, 0.0, 0, 0;
    }

    /** The locked region of an observation, field by field. */
    method ObserveSample(sample: real)
      modifies this
      ensures View() == Observed(config, old(View()), sample) && waits == old(waits)
    {
      var smoothed := Smoothed(Bucket(ratePerSec, tokens, updatedAt, latencyEwma, limitedBatches), sample);
      latencyEwma := smoothed;
      if sample > config.target * 1.25 || smoothed > config.target {
        var rate := Lowered(config, ratePerSec);
        ratePerSec := Some(rate);
        tokens := Lesser(tokens, rate * 0.05);
        limitedBatches := limitedBatches + 1;
      } else if smoothed < config.target * 0.6 && ratePerSec.Some? {
        var next := Raised(config, ratePerSec.value);
        if next >= Cap(config) {
          ratePerSec, tokens := None, 0.0;
        } else {
          ratePerSec := Some(next);
        }
      }
    }

    method ObserveQueueLatencies(latencies: seq<real>)
      requires Valid()
      modifies this
      ensures Valid() && waits == old(waits)
      ensures View() == if config.enabled && latencies != []
                        then Observed(config, old(View()), Mean(latencies))
                        else old(View())
    {
      if !config.enabled || latencies == [] { return; }
      var sample := MeanOf(latencies);
      ObserveKeepsBucket(config, View(), sample);
      ObserveSample(sample);
    }

    /** One pass of the waiting loop under the lock. */
    method Pass(now: real, count: nat) returns (granted: bool)
      requires ratePerSec.Some?
      modifies this
      ensures granted == Grants(old(View()), now, count) && View() == Attempted(old(View()), now, count)
    {
      var rate := ratePerSec.value;
      var elapsed := Greater(now - updatedAt, 0.0);
      updatedAt := now;
      tokens := Lesser(rate * 0.25, tokens + elapsed * rate);
      if tokens >= count as real {
        tokens := tokens - count as real;
        return true;
      }
      waits := waits + 1;
      return false;
    }

    /** `clock` holds the readings of the passes; running out of readings is still waiting. */
    method WaitForCreates(count: int, clock: seq<real>) returns (returned: bool)
      requires Valid()
      modifies this
      ensures Valid()
      ensures !config.enabled || count <= 0 ==> returned && View() == old(View())
      ensures config.enabled && count > 0 ==> (View(), returned) == Waited(old(View()), clock, count)
    {
      if !config.enabled || count <= 0 { return true; }
      var i := 0;
      while ratePerSec.Some? && i < |clock|
        invariant Valid() && 0 <= i <= |clock|
        invariant Waited(View(), clock[i..], count) == Waited(old(View()), clock, count)
        decreases |clock| - i
      {
        assert clock[i..][0] == clock[i] && clock[i..][1..] == clock[i + 1..];
        AttemptKeepsBucket(config, View(), clock[i], count);
        var granted := Pass(clock[i], count);
        if granted { return true; }
        i := i + 1;
      }
      returned := ratePerSec.None?;
    }
  }
}
