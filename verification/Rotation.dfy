/** Round-robin over the worker's partitions: `_next_claim_partition`. */
module Rotation {
  import opened Common

  type Key = string

  datatype Claim = NoPartitions | Anywhere | OneKey(key: Key) | SomeKeys(keys: seq<Key>)

  /** The positions one call visits, `n` partitions and batches of `c`. */
  function Positions(cursor: nat, c: nat, n: nat): (r: seq<nat>)
    requires n > 0
    ensures |r| == Min(c, n) && forall o | 0 <= o < |r| :: r[o] < n
  {
    seq(Min(c, n), o requires 0 <= o => (cursor + o) % n)
  }

  function CursorAfter(cursor: nat, c: nat, n: nat): (r: nat)
    requires n > 0
    ensures r < n
  {
    (cursor + Min(c, n)) % n
  }

  /** All positions visited by `calls` consecutive calls, in order. */
  function Visits(cursor: nat, c: nat, n: nat, calls: nat): (r: seq<nat>)
    requires n > 0
    decreases calls
  {
    if calls == 0 then []
    else Positions(cursor, c, n) + Visits(CursorAfter(cursor, c, n), c, n, calls - 1)
  }

  function Times(s: seq<nat>, p: nat): nat {
    if s == [] then 0 else Times(s[..|s| - 1], p) + (if s[|s| - 1] == p then 1 else 0)
  }

  lemma ModOfSum(x: nat, y: nat, n: nat)
    requires n > 0
    ensures (x % n + y) % n == (x + y) % n
  {
    var q := x / n;
    assert x == q * n + x % n;
    ModPlusMultiple(x % n + y, q, n);
    assert x + y == x % n + y + q * n;
  }

  lemma {:induction false} ModPlusMultiple(x: nat, q: nat, n: nat)
    requires n > 0
    ensures (x + q * n) % n == x % n
    decreases q
  {
    if q > 0 {
      ModPlusMultiple(x, q - 1, n);
      assert x + q * n == (x + (q - 1) * n) + n;
      ModPlusOne(x + (q - 1) * n, n);
    }
  }

  lemma ModPlusOne(y: nat, n: nat)
    requires n > 0
    ensures (y + n) % n == y % n
  {
    var r, q := y % n, y / n;
    assert y + n == (q + 1) * n + r;
    ModUnique(y + n, q + 1, r, n);
  }

  lemma TimesAtLeast(d: int, n: int)
    requires d >= 1 && n > 0
    ensures d * n >= n
  {
  }

  lemma Distributes(a: int, b: int, n: int)
    ensures a * n - b * n == (a - b) * n
  {
  }

  /** Two multiples of `n` less than `n` apart are the same. */
  lemma CloseMultiples(a: int, b: int, n: int)
    requires n > 0 && -n < a * n - b * n < n
    ensures a == b
  {
    Distributes(a, b, n);
    Distributes(b, a, n);
    if a > b { TimesAtLeast(a - b, n); }
    if b > a { TimesAtLeast(b - a, n); }
  }

  lemma ModUnique(x: int, q: int, r: int, n: int)
    requires n > 0 && 0 <= r < n && x == q * n + r
    ensures x % n == r
  {
    assert x == (x / n) * n + x % n;
    CloseMultiples(x / n, q, n);
  }

  /** The walk that starts at `cursor` and takes `steps` steps. */
  function Walk(cursor: nat, n: nat, steps: nat): (r: seq<nat>)
    requires n > 0
    ensures |r| == steps
  {
    seq(steps, t requires 0 <= t => (cursor + t) % n)
  }

  lemma WalkAt(cursor: nat, n: nat, steps: nat, t: nat)
    requires n > 0 && t < steps
    ensures Walk(cursor, n, steps)[t] == (cursor + t) % n
  {
  }

  lemma SamePosition(cursor: nat, start: nat, n: nat, m: nat, t: nat)
    requires n > 0 && start == (cursor + m) % n
    ensures (start + t) % n == (cursor + (m + t)) % n
  {
    ModOfSum(cursor + m, t, n);
  }

  /** Walking on from where a walk stopped is one longer walk. */
  lemma WalkGoesOn(cursor: nat, start: nat, n: nat, m: nat, steps: nat)
    requires n > 0 && start == (cursor + m) % n
    ensures Walk(cursor, n, m) + Walk(start, n, steps) == Walk(cursor, n, m + steps)
  {
    var both, long := Walk(cursor, n, m) + Walk(start, n, steps), Walk(cursor, n, m + steps);
    forall t | 0 <= t < m + steps ensures both[t] == long[t] {
      WalkAt(cursor, n, m + steps, t);
      if t < m {
        WalkAt(cursor, n, m, t);
      } else {
        WalkAt(start, n, steps, t - m);
        SamePosition(cursor, start, n, m, t - m);
      }
    }
  }

  lemma CallIsWalk(cursor: nat, c: nat, n: nat)
    requires n > 0
    ensures Positions(cursor, c, n) == Walk(cursor, n, Min(c, n))
  {
  }

  lemma OneMoreCall(calls: nat, m: nat)
    requires calls > 0
    ensures calls * m == m + (calls - 1) * m
  {
  }

  /** Seen end to end, the calls walk round the partitions one position at a time. */
  lemma {:induction false} VisitsWalkRound(cursor: nat, c: nat, n: nat, calls: nat)
    requires n > 0
    ensures Visits(cursor, c, n, calls) == Walk(cursor, n, calls * Min(c, n))
    decreases calls
  {
    if calls == 0 {
      assert 0 * Min(c, n) == 0;
    } else {
      var m, next := Min(c, n), CursorAfter(cursor, c, n);
      VisitsWalkRound(next, c, n, calls - 1);
      OneMoreCall(calls, m);
      CallIsWalk(cursor, c, n);
      WalkGoesOn(cursor, next, n, m, (calls - 1) * m);
    }
  }

  /** How far ahead position `p` lies. */
  function Ahead(cursor: nat, p: nat, n: nat): (d: nat)
    requires cursor < n && p < n
    ensures d < n
  {
    if p >= cursor then p - cursor else p + n - cursor
  }

  lemma HitsEveryRound(cursor: nat, p: nat, n: nat, t: nat)
    requires cursor < n && p < n && (cursor + t) % n == p
    ensures exists j :: t == Ahead(cursor, p, n) + j * n
  {
    var q := (cursor + t) / n;
    assert cursor + t == q * n + p;
    var d := Ahead(cursor, p, n);
    if p >= cursor {
      assert t == d + q * n;
    } else {
      assert t == d + (q - 1) * n;
    }
  }

  lemma HitIsRound(cursor: nat, p: nat, n: nat, k: nat)
    requires cursor < n && p < n
    ensures (cursor + (Ahead(cursor, p, n) + k * n)) % n == p
  {
    var d := Ahead(cursor, p, n);
    if p >= cursor {
      assert cursor + (d + k * n) == k * n + p;
      ModUnique(k * n + p, k, p, n);
    } else {
      assert cursor + (d + k * n) == (k + 1) * n + p;
      ModUnique((k + 1) * n + p, k + 1, p, n);
    }
  }

  lemma OnlyMultiple(j: int, k: int, n: int, low: int)
    requires n > 0 && low + (k - 1) * n < low + j * n <= low + k * n
    ensures j == k
  {
    Distributes(k, 1, n);
    CloseMultiples(j, k, n);
  }

  /** One more step of the walk, seen from `p`. */
  lemma OneMoreVisit(cursor: nat, n: nat, t: nat, p: nat, k: nat)
    requires cursor < n && p < n
    requires var d := Ahead(cursor, p, n); d + (k - 1) * n < t <= d + k * n
    ensures var d, l := Ahead(cursor, p, n), if (cursor + t) % n == p then k + 1 else k;
            d + (l - 1) * n < t + 1 <= d + l * n
  {
    var d := Ahead(cursor, p, n);
    Distributes(k + 1, k, n);
    if (cursor + t) % n == p {
      HitsEveryRound(cursor, p, n, t);
      var j :| t == d + j * n;
      OnlyMultiple(j, k, n, d);
    } else if t == d + k * n {
      HitIsRound(cursor, p, n, k);
    }
  }

  /** In a walk of `steps`, the number of visits to `p` is the number of whole rounds past it. */
  lemma {:induction false} VisitsToOne(cursor: nat, n: nat, steps: nat, p: nat)
    requires cursor < n && p < n
    ensures var d, k := Ahead(cursor, p, n), Times(Walk(cursor, n, steps), p);
            d + (k - 1) * n < steps <= d + k * n
  {
    var d := Ahead(cursor, p, n);
    Distributes(0, 1, n);
    if steps > 0 {
      var t := steps - 1;
      VisitsToOne(cursor, n, t, p);
      var walk := Walk(cursor, n, steps);
      assert walk[..t] == Walk(cursor, n, t) && walk[t] == (cursor + t) % n;
      OneMoreVisit(cursor, n, t, p, Times(Walk(cursor, n, t), p));
    }
  }

  lemma CountsDiffer(d: nat, e: nat, k: nat, l: nat, n: nat, steps: nat)
    requires d < n && e < n && d + (k - 1) * n < steps <= d + k * n && e + (l - 1) * n < steps <= e + l * n
    ensures k <= l + 1
  {
    Distributes(k - 1, l, n);
    if k >= l + 2 {
      Distributes(k - 1 - l, 0, n);
      TimesAtLeast(k - 1 - l, n);
    }
  }

  /** After any number of calls, the visit counts of two partitions differ by at most one. */
  lemma RotationIsFair(cursor: nat, c: nat, n: nat, calls: nat, p: nat, q: nat)
    requires cursor < n && p < n && q < n
    ensures var v := Visits(cursor, c, n, calls); -1 <= Times(v, p) - Times(v, q) <= 1
  {
    var v := Visits(cursor, c, n, calls);
    VisitsWalkRound(cursor, c, n, calls);
    VisitsToOne(cursor, n, |v|, p);
    VisitsToOne(cursor, n, |v|, q);
    var d, e := Ahead(cursor, p, n), Ahead(cursor, q, n);
    CountsDiffer(d, e, Times(v, p), Times(v, q), n, |v|);
    CountsDiffer(e, d, Times(v, q), Times(v, p), n, |v|);
  }

  /** Any run of calls that makes `n` visits in all reaches every partition. */
  lemma RotationCovers(cursor: nat, c: nat, n: nat, calls: nat, p: nat)
    requires cursor < n && p < n && calls * Min(c, n) >= n
    ensures p in Visits(cursor, c, n, calls)
  {
    var v := Visits(cursor, c, n, calls);
    VisitsWalkRound(cursor, c, n, calls);
    var d := Ahead(cursor, p, n);
    HitIsRound(cursor, p, n, 0);
    WalkAt(cursor, n, calls * Min(c, n), d);
    assert 0 * n == 0 && v[d] == p;
  }

  function CeilDiv(n: nat, c: nat): nat
    requires c > 0
  {
    (n + c - 1) / c
  }

  /** ceil(n/c) consecutive calls are enough, from any cursor. */
  lemma CeilingCovers(cursor: nat, c: nat, n: nat, p: nat)
    requires cursor < n && p < n && c > 0
    ensures p in Visits(cursor, c, n, CeilDiv(n, c))
  {
    var calls := CeilDiv(n, c);
    assert calls * c >= n by {
      var r := (n + c - 1) % c;
      assert n + c - 1 == calls * c + r;
    }
    if c > n {
      assert calls >= 1 by { assert 0 * c == 0; }
      assert calls * n >= n;
    }
    RotationCovers(cursor, c, n, calls, p);
  }

  /** One call fewer may not be enough: a batch of visits shorter than `n` misses the last position. */
  lemma FewerMisses(cursor: nat, c: nat, n: nat, calls: nat)
    requires cursor < n && calls * Min(c, n) < n
    ensures (cursor + n - 1) % n !in Visits(cursor, c, n, calls)
  {
    var v := Visits(cursor, c, n, calls);
    var last := (cursor + n - 1) % n;
    VisitsWalkRound(cursor, c, n, calls);
    forall t | 0 <= t < |v| ensures v[t] != last {
      WalkAt(cursor, n, |v|, t);
      DifferentPositions(cursor, t, n - 1, n);
    }
  }

  lemma DifferentPositions(cursor: nat, s: nat, t: nat, n: nat)
    requires s < t < n
    ensures (cursor + s) % n != (cursor + t) % n
  {
    var x, y := cursor + s, cursor + t;
    assert x == (x / n) * n + x % n && y == (y / n) * n + y % n;
    if x % n == y % n {
      CloseMultiples(x / n, y / n, n);
    }
  }

  /** Within one call no position comes twice. */
  lemma CallVisitsDistinct(cursor: nat, c: nat, n: nat, s: nat, t: nat)
    requires n > 0 && s < t < Min(c, n)
    ensures Positions(cursor, c, n)[s] != Positions(cursor, c, n)[t]
  {
    DifferentPositions(cursor, s, t, n);
  }

  class PartitionCursor {
    const partitionKey: Option<Key>
    const partitionKeys: Option<seq<Key>>
    const batchSize: nat
    var cursor: nat

    constructor (partitionKey: Option<Key>, partitionKeys: Option<seq<Key>>, batchSize: nat)
      requires batchSize > 0
      ensures this.partitionKey == partitionKey && this.partitionKeys == partitionKeys && this.batchSize == batchSize
      ensures cursor == 0
    {
      this.partitionKey, this.partitionKeys, this.batchSize, cursor := partitionKey, partitionKeys, batchSize, 0;
    }

    /** The claim's keys sit at this call's positions, and the cursor moves past them. */
    method NextClaimPartition() returns (claim: Claim)
      requires batchSize > 0
      modifies `cursor
      ensures partitionKey.Some? ==> claim == OneKey(partitionKey.value)
      ensures partitionKey.None? && partitionKeys.None? ==> claim == Anywhere
      ensures partitionKey.None? && partitionKeys == Some([]) ==> claim == NoPartitions
      ensures partitionKey.Some? || partitionKeys.None? || partitionKeys.value == [] ==> cursor == old(cursor)
      ensures partitionKey.None? && partitionKeys.Some? && partitionKeys.value != [] ==>
                var all := partitionKeys.value;
                var positions := Positions(old(cursor), batchSize, |all|);
                && cursor == CursorAfter(old(cursor), batchSize, |all|)
                && (claim.OneKey? <==> |positions| == 1)
                && (claim.OneKey? ==> claim.key == all[positions[0]])
                && (!claim.OneKey? ==> claim.SomeKeys? && |claim.keys| == |positions|
                                       && forall o | 0 <= o < |positions| :: claim.keys[o] == all[positions[o]])
    {
      if partitionKey.Some? { return OneKey(partitionKey.value); }
      if partitionKeys.None? { return Anywhere; }
      var all := partitionKeys.value;
      if all == [] { return NoPartitions; }
      var count := Min(batchSize, |all|);
      var start := cursor;
      var keys := seq(count, o requires 0 <= o => all[(start + o) % |all|]);
      cursor := (cursor + count) % |all|;
      if |keys| == 1 { return OneKey(keys[0]); }
      return SomeKeys(keys);
    }
  }
}
