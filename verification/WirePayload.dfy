/** IEEE 754 doubles of natural numbers, as Python's `float` and `struct` make them. */
module Doubles {
  function Power(base: nat, n: nat): nat { if n == 0 then 1 else base * Power(base, n - 1) }

  /** Integers below this are doubles exactly. */
  const EXACT_LIMIT: nat := 0x20_0000_0000_0000
  const HIDDEN_BIT: nat := 0x10_0000_0000_0000            // the leading bit that the format leaves out

  /** Shift `n` left until its leading bit is the hidden one: the significand, and how far. */
  function Significand(n: nat): (m: nat)
    requires 0 < n < EXACT_LIMIT
    ensures HIDDEN_BIT <= m < EXACT_LIMIT
    decreases EXACT_LIMIT - n
  {
    if n >= HIDDEN_BIT then n else Significand(2 * n)
  }

  function Shift(n: nat): nat
    requires 0 < n < EXACT_LIMIT
    decreases EXACT_LIMIT - n
  {
    if n >= HIDDEN_BIT then 0 else 1 + Shift(2 * n)
  }

  function Halved(m: nat, times: nat): nat { if times == 0 then m else Halved(m, times - 1) / 2 }

  lemma {:induction false} ShiftRoundTrip(n: nat)
    requires 0 < n < EXACT_LIMIT
    ensures Halved(Significand(n), Shift(n)) == n
    decreases EXACT_LIMIT - n
  {
    if n < HIDDEN_BIT { ShiftRoundTrip(2 * n); }
  }

  lemma {:induction false} ShiftBound(n: nat, least: nat, k: nat)
    requires 0 < n < EXACT_LIMIT && least <= n && k <= 52 && HIDDEN_BIT == least * Power(2, k)
    ensures Shift(n) <= k
    decreases k
  {
    if n < HIDDEN_BIT {
      assert k > 0 by { assert Power(2, 0) == 1; }
      assert HIDDEN_BIT == (2 * least) * Power(2, k - 1);
      ShiftBound(2 * n, 2 * least, k - 1);
    }
  }

  lemma {:induction false} PowerAdds(m: nat, n: nat)
    ensures Power(2, m + n) == Power(2, m) * Power(2, n)
    decreases m
  {
    if m > 0 { PowerAdds(m - 1, n); }
  }

  lemma ShiftFits(n: nat)
    requires 0 < n < EXACT_LIMIT
    ensures Shift(n) <= 52
  {
    Powers52();
    ShiftBound(n, 1, 52);
  }

  // ------------------------------------------------ rounding larger integers

  /** Halve `n` until it is exact: how often, what is left, what was cut off, and its unit. */
  function Halvings(n: nat): nat { if n < EXACT_LIMIT then 0 else 1 + Halvings(n / 2) }

  function Top(n: nat): nat { if n < EXACT_LIMIT then n else Top(n / 2) }

  function Low(n: nat): nat { if n < EXACT_LIMIT then 0 else 2 * Low(n / 2) + n % 2 }

  function Unit(n: nat): nat { Power(2, Halvings(n)) }

  lemma {:induction false} Cut(n: nat)
    ensures n == Top(n) * Unit(n) + Low(n) && Low(n) < Unit(n)
    ensures Top(n) < EXACT_LIMIT && (n >= EXACT_LIMIT ==> HIDDEN_BIT <= Top(n))
  {
    if n >= EXACT_LIMIT {
      Cut(n / 2);
      var half := Unit(n / 2);
      assert Unit(n) == 2 * half;
      assert Top(n) * (2 * half) == 2 * (Top(n) * half);
    }
  }

  /** To nearest, ties to even. */
  predicate RoundsUp(n: nat) { 2 * Low(n) > Unit(n) || (2 * Low(n) == Unit(n) && Top(n) % 2 == 1) }

  function Rounded(n: nat): nat { if RoundsUp(n) then Top(n) + 1 else Top(n) }

  /** The double nearest to `n`. */
  function Nearest(n: nat): nat { Rounded(n) * Unit(n) }

  /** It is `n` itself where `n` is exact, and never more than half a unit away. */
  lemma NearestIsNear(n: nat)
    ensures n < EXACT_LIMIT ==> Nearest(n) == n
    ensures 2 * n <= 2 * Nearest(n) + Unit(n) && 2 * Nearest(n) <= 2 * n + Unit(n)
  {
    Cut(n);
    NextUp(Top(n), Unit(n));
    if n < EXACT_LIMIT { assert Unit(n) == 1; }
  }

  lemma NextUp(top: nat, unit: nat)
    ensures (top + 1) * unit == top * unit + unit
  {
  }

  /** Of two doubles equally near it is the even one. */
  lemma TieGoesToEven(n: nat)
    requires 2 * n == 2 * Nearest(n) + Unit(n) || 2 * Nearest(n) == 2 * n + Unit(n)
    ensures Rounded(n) % 2 == 0
  {
    Cut(n);
    NextUp(Top(n), Unit(n));
    if RoundsUp(n) {
      assert Nearest(n) == Top(n) * Unit(n) + Unit(n);
    } else {
      assert Nearest(n) == Top(n) * Unit(n);
    }
  }

  /** `float(n)` raises on numbers that round to this or more. */
  function Overflow(): nat { Power(2, 1024) }

  predicate FloatOk(n: nat) { Nearest(n) < Overflow() }

  lemma {:induction false} PowerMonotone(m: nat, n: nat)
    requires m <= n
    ensures 0 < Power(2, m) <= Power(2, n)
    decreases n
  {
    if m < n { PowerMonotone(m, n - 1); } else if m > 0 { PowerMonotone(m - 1, n - 1); }
  }

  lemma Powers52()
    ensures Power(2, 52) == HIDDEN_BIT && Power(2, 53) == EXACT_LIMIT
  {
    assert Power(2, 4) == 16;
    PowerAdds(4, 4);
    PowerAdds(8, 8);
    PowerAdds(16, 16);
    PowerAdds(4, 16);
    PowerAdds(20, 32);
  }

  lemma TimesMonotone(a: nat, b: nat, c: nat, d: nat)
    requires a <= c && b <= d
    ensures a * b <= c * d
  {
    assert a * b <= c * b;
    assert c * b <= c * d;
  }

  /** What `float` accepts fits the exponent of the format. */
  lemma ExponentFits(n: nat, top: nat)
    requires n >= EXACT_LIMIT && top == 1024 && Nearest(n) < Power(2, top)
    ensures Halvings(n) <= 971 && (Halvings(n) == 971 ==> Rounded(n) < EXACT_LIMIT)
  {
    Cut(n);
    Powers52();
    if Halvings(n) > 971 {
      PowerAdds(52, top - 52);
      PowerMonotone(top - 52, Halvings(n));
      TimesMonotone(HIDDEN_BIT, Power(2, top - 52), Rounded(n), Unit(n));
    } else if Halvings(n) == 971 && Rounded(n) >= EXACT_LIMIT {
      PowerAdds(53, top - 53);
      TimesMonotone(EXACT_LIMIT, Power(2, top - 53), Rounded(n), Unit(n));
    }
  }

  // ------------------------------------------------ the format

  /** The bits of `float(n)`: the biased exponent, then the significand without its hidden bit; a carry moves the exponent. */
  function DoubleBits(n: nat): nat {
    if n == 0 then 0
    else if n < EXACT_LIMIT then
      ShiftFits(n);
      (1075 - Shift(n)) * HIDDEN_BIT + (Significand(n) - HIDDEN_BIT)
    else
      Cut(n);
      (1075 + Halvings(n)) * HIDDEN_BIT + (Rounded(n) - HIDDEN_BIT)
  }

  function DoubleValue(bits: nat): nat {
    var e, m := bits / HIDDEN_BIT, HIDDEN_BIT + bits % HIDDEN_BIT;
    if bits == 0 then 0 else if e <= 1075 then Halved(m, 1075 - e) else m * Power(2, e - 1075)
  }

  lemma Parts(bits: nat, e: nat, f: nat)
    requires bits == e * HIDDEN_BIT + f && f < HIDDEN_BIT
    ensures bits / HIDDEN_BIT == e && bits % HIDDEN_BIT == f
  {
  }

  lemma ExactRoundTrip(n: nat)
    requires 0 < n < EXACT_LIMIT
    ensures DoubleValue(DoubleBits(n)) == n && DoubleBits(n) < 0x1_0000_0000_0000_0000
  {
    ShiftFits(n);
    ShiftRoundTrip(n);
    Parts(DoubleBits(n), 1075 - Shift(n), Significand(n) - HIDDEN_BIT);
  }

  lemma LargeRoundTrip(n: nat)
    requires n >= EXACT_LIMIT
    ensures DoubleValue(DoubleBits(n)) == Nearest(n)
  {
    Cut(n);
    var k, q := Halvings(n), Rounded(n);
    assert k > 0;
    if q < EXACT_LIMIT {
      Parts(DoubleBits(n), 1075 + k, q - HIDDEN_BIT);
    } else {
      assert q == EXACT_LIMIT == 2 * HIDDEN_BIT;
      Parts(DoubleBits(n), 1076 + k, 0);
      assert Power(2, k + 1) == 2 * Power(2, k);
      assert HIDDEN_BIT * (2 * Power(2, k)) == (2 * HIDDEN_BIT) * Power(2, k);
    }
  }

  lemma {:induction false} SignificandScales(n: nat)
    requires 0 < n < EXACT_LIMIT
    ensures Significand(n) == n * Power(2, Shift(n))
    decreases EXACT_LIMIT - n
  {
    if n < HIDDEN_BIT {
      SignificandScales(2 * n);
      assert 2 * n * Power(2, Shift(2 * n)) == n * (2 * Power(2, Shift(2 * n)));
    } else {
      assert Power(2, 0) == 1;
    }
  }

  /** The layout of a normal number in IEEE 754: exponent `e` biased by 1023, and fraction `f` of 52 bits. */
  predicate IsNormal(bits: nat, e: nat, f: nat) { f < 0x10_0000_0000_0000 && bits == (1023 + e) * 0x10_0000_0000_0000 + f }

  /** Its value is (1 + f / 2^52) * 2^e. */
  predicate HasValue(n: nat, e: nat, f: nat) { n * 0x10_0000_0000_0000 == (0x10_0000_0000_0000 + f) * Power(2, e) }

  lemma ExactBits(n: nat) returns (e: nat, f: nat)
    requires 0 < n < EXACT_LIMIT
    ensures IsNormal(DoubleBits(n), e, f) && HasValue(n, e, f)
  {
    ShiftFits(n);
    SignificandScales(n);
    Powers52();
    e, f := 52 - Shift(n), Significand(n) - HIDDEN_BIT;
    PowerAdds(Shift(n), e);
    TimesAssociates(n, Power(2, Shift(n)), Power(2, e));
  }

  lemma TimesAssociates(a: nat, b: nat, c: nat)
    ensures a * (b * c) == (a * b) * c
  {
  }

  lemma TimesSwaps(a: nat, b: nat, c: nat)
    ensures (a * b) * c == a * (c * b)
  {
  }

  lemma LargeBits(n: nat) returns (e: nat, f: nat)
    requires n >= EXACT_LIMIT
    ensures IsNormal(DoubleBits(n), e, f) && HasValue(Nearest(n), e, f)
  {
    Cut(n);
    Powers52();
    var k, q := Halvings(n), Rounded(n);
    TimesSwaps(q, Power(2, k), HIDDEN_BIT);
    if q < EXACT_LIMIT {
      e, f := 52 + k, q - HIDDEN_BIT;
      PowerAdds(52, k);
    } else {
      e, f := 53 + k, 0;
      assert q == EXACT_LIMIT == 2 * HIDDEN_BIT;
      PowerAdds(53, k);
      TimesSwaps(HIDDEN_BIT, EXACT_LIMIT, Power(2, k));
      TimesAssociates(HIDDEN_BIT, EXACT_LIMIT, Power(2, k));
    }
  }

  /** The bits of every positive number are those of IEEE 754 for its nearest double. */
  lemma BitsAreIeee(n: nat) returns (e: nat, f: nat)
    requires n > 0
    ensures IsNormal(DoubleBits(n), e, f) && HasValue(Nearest(n), e, f)
  {
    NearestIsNear(n);
    if n < EXACT_LIMIT { e, f := ExactBits(n); } else { e, f := LargeBits(n); }
  }

  /** What the bits say is the nearest double, and they fit 64 bits. */
  lemma DoubleRoundTrip(n: nat)
    requires FloatOk(n)
    ensures DoubleValue(DoubleBits(n)) == Nearest(n) && DoubleBits(n) < 0x1_0000_0000_0000_0000
  {
    NearestIsNear(n);
    if n >= EXACT_LIMIT {
      LargeRoundTrip(n);
      Cut(n);
      ExponentFits(n, 1024);
    } else if n > 0 {
      ExactRoundTrip(n);
    }
  }
}

/**
 Bulk wire payloads of the key-value benchmark.  A batch walks cyclically over a
 pool of prepared key fragments; the fast slice and the wrapping loop are shown
 to give item `i` the key at `(sequence + i) mod size`, and the length-prefixed
 bytes to decode to the very items that one command at a time would send.
 */
module WirePayload {
  import opened Common
  import opened Doubles
  import Rotation

  type Byte = b: int | 0 <= b < 256
  type Bytes = seq<Byte>

  // ------------------------------------------------ big-endian numbers

  const U32_LIMIT: nat := 0x1_0000_0000

  /** The `size` low-order bytes of `n`, most significant first. */
  function BigEndian(n: nat, size: nat): (r: Bytes)
    ensures |r| == size
  {
    if size == 0 then [] else BigEndian(n / 256, size - 1) + [n % 256]
  }

  function ReadBigEndian(b: Bytes): nat {
    if b == [] then 0 else ReadBigEndian(b[..|b| - 1]) * 256 + b[|b| - 1]
  }

  lemma {:induction false} BigEndianRoundTrip(n: nat, size: nat)
    requires n < Power(256, size)
    ensures ReadBigEndian(BigEndian(n, size)) == n
    decreases size
  {
    if size > 0 {
      assert n / 256 < Power(256, size - 1);
      BigEndianRoundTrip(n / 256, size - 1);
      assert BigEndian(n, size)[..size - 1] == BigEndian(n / 256, size - 1);
    }
  }

  function U32(n: nat): (r: Bytes)
    ensures |r| == 4
  {
    BigEndian(n, 4)
  }

  lemma Powers256()
    ensures Power(256, 4) == U32_LIMIT && Power(256, 8) == 0x1_0000_0000_0000_0000
  {
    assert Power(256, 1) == 256 && Power(256, 2) == 0x1_0000 && Power(256, 3) == 0x100_0000;
    assert Power(256, 4) == U32_LIMIT;
    assert Power(256, 5) == 0x100_0000_0000 && Power(256, 6) == 0x1_0000_0000_0000;
    assert Power(256, 7) == 0x100_0000_0000_0000;
  }

  lemma U32RoundTrip(n: nat)
    requires n < U32_LIMIT
    ensures ReadBigEndian(U32(n)) == n
  {
    Powers256();
    BigEndianRoundTrip(n, 4);
  }

  /** Network byte order: the most significant of the four bytes comes first. */
  lemma U32Bytes(n: nat)
    requires n < U32_LIMIT
    ensures U32(n) == [n / 0x100_0000, n / 0x1_0000 % 256, n / 0x100 % 256, n % 256]
  {
    assert BigEndian(n / 0x100_0000, 1) == BigEndian(n / 0x100_0000 / 256, 0) + [n / 0x100_0000 % 256];
    assert n / 0x1_0000 / 256 == n / 0x100_0000 && n / 0x100 / 256 == n / 0x1_0000;
    assert BigEndian(n / 0x1_0000, 2) == BigEndian(n / 0x100_0000, 1) + [n / 0x1_0000 % 256];
    assert BigEndian(n / 0x100, 3) == BigEndian(n / 0x1_0000, 2) + [n / 0x100 % 256];
  }

  // ------------------------------------------------ scores

  function F64(n: nat): (r: Bytes)
    ensures |r| == 8
  {
    BigEndian(DoubleBits(n), 8)
  }

  lemma F64RoundTrip(n: nat)
    requires FloatOk(n)
    ensures DoubleValue(ReadBigEndian(F64(n))) == Nearest(n)
  {
    DoubleRoundTrip(n);
    Powers256();
    BigEndianRoundTrip(DoubleBits(n), 8);
  }

  // ------------------------------------------------ items and their bytes

  /** What one command of a batch carries: a key, a key and a value, or a key, a score and a member. */
  datatype Item = KeyItem(key: Bytes) | PairItem(key: Bytes, value: Bytes) | ScoreItem(key: Bytes, score: nat, value: Bytes)
  datatype Layout = Keys | Pairs | Scores

  predicate Fits(b: Bytes) { |b| < U32_LIMIT }

  function Fragment(b: Bytes): Bytes { U32(|b|) + b }

  predicate ItemFits(layout: Layout, item: Item) {
    match item
    case KeyItem(key) => layout.Keys? && Fits(key)
    case PairItem(key, value) => layout.Pairs? && Fits(key) && Fits(value)
    case ScoreItem(key, score, value) => layout.Scores? && Fits(key) && FloatOk(score) && Fits(value)
  }

  /** The item as the wire carries it: its score is the nearest double. */
  function AsSent(item: Item): Item {
    if item.ScoreItem? then item.(score := Nearest(item.score)) else item
  }

  function AllAsSent(items: seq<Item>): (r: seq<Item>)
    ensures |r| == |items|
  {
    seq(|items|, i requires 0 <= i < |items| => AsSent(items[i]))
  }

  function Encoded(item: Item): Bytes {
    match item
    case KeyItem(key) => Fragment(key)
    case PairItem(key, value) => Fragment(key) + Fragment(value)
    case ScoreItem(key, score, value) => Fragment(key) + (F64(score) + Fragment(value))
  }

  /** Read a length-prefixed string off the front: the string and the rest. */
  function Taken(b: Bytes): Option<(Bytes, Bytes)> {
    if |b| < 4 then None
    else
      var n := ReadBigEndian(b[..4]);
      if |b| < 4 + n then None else Some((b[4..4 + n], b[4 + n..]))
  }

  function DecodedItem(layout: Layout, b: Bytes): Option<(Item, Bytes)> {
    var key := Taken(b);
    if key.None? then None
    else if layout.Keys? then Some((KeyItem(key.value.0), key.value.1))
    else if layout.Pairs? then
      var value := Taken(key.value.1);
      if value.None? then None else Some((PairItem(key.value.0, value.value.0), value.value.1))
    else if |key.value.1| < 8 then None
    else
      var value := Taken(key.value.1[8..]);
      if value.None? then None
      else Some((ScoreItem(key.value.0, DoubleValue(ReadBigEndian(key.value.1[..8])), value.value.0), value.value.1))
  }

  function DecodedItems(layout: Layout, count: nat, b: Bytes): Option<seq<Item>> {
    if count == 0 then (if b == [] then Some([]) else None)
    else
      var first := DecodedItem(layout, b);
      if first.None? then None
      else
        var rest := DecodedItems(layout, count - 1, first.value.1);
        if rest.None? then None else Some([first.value.0] + rest.value)
  }

  lemma TakeFragment(b: Bytes, rest: Bytes)
    requires Fits(b)
    ensures Taken(Fragment(b) + rest) == Some((b, rest))
  {
    U32RoundTrip(|b|);
    var all := Fragment(b) + rest;
    assert all[..4] == U32(|b|);
    assert all[4..4 + |b|] == b && all[4 + |b|..] == rest;
  }

  lemma DecodeKey(key: Bytes, rest: Bytes)
    requires Fits(key)
    ensures DecodedItem(Keys, Encoded(KeyItem(key)) + rest) == Some((KeyItem(key), rest))
  {
    TakeFragment(key, rest);
  }

  lemma DecodePair(key: Bytes, value: Bytes, rest: Bytes)
    requires Fits(key) && Fits(value)
    ensures DecodedItem(Pairs, Encoded(PairItem(key, value)) + rest) == Some((PairItem(key, value), rest))
  {
    Associative(Fragment(key), Fragment(value), rest);
    TakeFragment(key, Fragment(value) + rest);
    TakeFragment(value, rest);
  }

  lemma DecodeScore(key: Bytes, score: nat, value: Bytes, rest: Bytes)
    requires Fits(key) && FloatOk(score) && Fits(value)
    ensures DecodedItem(Scores, Encoded(ScoreItem(key, score, value)) + rest) == Some((ScoreItem(key, Nearest(score), value), rest))
  {
    var tail := F64(score) + (Fragment(value) + rest);
    Associative(F64(score), Fragment(value), rest);
    Associative(Fragment(key), F64(score) + Fragment(value), rest);
    TakeFragment(key, tail);
    assert tail[..8] == F64(score) && tail[8..] == Fragment(value) + rest;
    F64RoundTrip(score);
    TakeFragment(value, rest);
  }

  lemma DecodeOne(layout: Layout, item: Item, rest: Bytes)
    requires ItemFits(layout, item)
    ensures DecodedItem(layout, Encoded(item) + rest) == Some((AsSent(item), rest))
  {
    match item
    case KeyItem(key) => DecodeKey(key, rest);
    case PairItem(key, value) => DecodePair(key, value, rest);
    case ScoreItem(key, score, value) => DecodeScore(key, score, value, rest);
  }

  /** `b"".join(parts)`. */
  function Joined(parts: seq<Bytes>): Bytes {
    if parts == [] then [] else Joined(parts[..|parts| - 1]) + parts[|parts| - 1]
  }

  lemma JoinedOne(part: Bytes)
    ensures Joined([part]) == part
  {
    var parts := [part];
    assert Joined(parts[..0]) == [];
  }

  lemma JoinedOneMore(parts: seq<Bytes>, more: Bytes)
    ensures Joined(parts + [more]) == Joined(parts) + more
  {
    assert (parts + [more])[..|parts|] == parts;
  }

  lemma {:induction false} JoinedConcat(a: seq<Bytes>, b: seq<Bytes>)
    ensures Joined(a + b) == Joined(a) + Joined(b)
    decreases |b|
  {
    if b == [] {
      assert a + b == a;
    } else {
      var front, last := b[..|b| - 1], b[|b| - 1];
      JoinedConcat(a, front);
      JoinedOneMore(a + front, last);
      assert a + b == (a + front) + [last];
      Associative(Joined(a), Joined(front), last);
    }
  }

  function EncodedEach(items: seq<Item>): (r: seq<Bytes>)
    ensures |r| == |items|
  {
    seq(|items|, i requires 0 <= i < |items| => Encoded(items[i]))
  }

  lemma JoinedFromFront(items: seq<Item>)
    requires items != []
    ensures Joined(EncodedEach(items)) == Encoded(items[0]) + Joined(EncodedEach(items[1..]))
  {
    JoinedConcat([Encoded(items[0])], EncodedEach(items[1..]));
    JoinedOne(Encoded(items[0]));
    assert EncodedEach(items) == [Encoded(items[0])] + EncodedEach(items[1..]);
  }

  predicate AllFit(layout: Layout, items: seq<Item>) {
    forall i | 0 <= i < |items| :: ItemFits(layout, items[i])
  }

  predicate Decodes(layout: Layout, b: Bytes, items: seq<Item>) { DecodedItems(layout, |items|, b) == Some(items) }

  lemma DecodeFirst(layout: Layout, b: Bytes, first: Item, rest: Bytes, items: seq<Item>)
    requires DecodedItem(layout, b) == Some((first, rest)) && Decodes(layout, rest, items)
    ensures Decodes(layout, b, [first] + items)
  {
  }

  lemma AllAsSentFromFront(items: seq<Item>)
    requires items != []
    ensures AllAsSent(items) == [AsSent(items[0])] + AllAsSent(items[1..])
  {
  }

  /** Length-prefixed decoding recovers exactly the items, and nothing is left over. */
  lemma {:induction false} ItemsRoundTrip(layout: Layout, items: seq<Item>)
    requires AllFit(layout, items)
    ensures Decodes(layout, Joined(EncodedEach(items)), AllAsSent(items))
    decreases |items|
  {
    if items != [] {
      var rest := Joined(EncodedEach(items[1..]));
      ItemsRoundTrip(layout, items[1..]);
      DecodeOne(layout, items[0], rest);
      DecodeFirst(layout, Encoded(items[0]) + rest, AsSent(items[0]), rest, AllAsSent(items[1..]));
      JoinedFromFront(items);
      AllAsSentFromFront(items);
    }
  }

  // ------------------------------------------------ the payload

  const REQUEST: Byte := 0x94

  function Header(mode: Byte, count: nat): (r: Bytes)
    ensures |r| == 6
  {
    [REQUEST, mode] + U32(count)
  }

  function DecodedPayload(layout: Layout, b: Bytes): Option<(Byte, seq<Item>)> {
    if |b| < 6 || b[0] != REQUEST then None
    else
      var items := DecodedItems(layout, ReadBigEndian(b[2..6]), b[6..]);
      if items.None? then None else Some((b[1], items.value))
  }

  /** The bytes of a header, and where the keys of an item and of a payload stand. */
  lemma HeaderBytes(mode: Byte, count: nat)
    requires count < U32_LIMIT
    ensures Header(mode, count) == [0x94, mode, count / 0x100_0000, count / 0x1_0000 % 256, count / 0x100 % 256, count % 256]
  {
    U32Bytes(count);
  }

  /** Every item begins with its key behind four bytes of length; a score's eight bytes stand between key and member. */
  lemma ItemBytes(item: Item)
    requires Fits(item.key)
    ensures var b, k := Encoded(item), 4 + |item.key|;
            && |b| >= k && b[..4] == U32(|item.key|) && b[4..k] == item.key
            && (item.KeyItem? ==> |b| == k)
            && (item.PairItem? ==> |b| == k + 4 + |item.value| && b[k..k + 4] == U32(|item.value|) && b[k + 4..] == item.value)
            && (item.ScoreItem? ==> |b| == k + 12 + |item.value| && b[k..k + 8] == BigEndian(DoubleBits(item.score), 8)
                                    && b[k + 8..k + 12] == U32(|item.value|) && b[k + 12..] == item.value)
  {
  }

  lemma PayloadRoundTrip(layout: Layout, mode: Byte, items: seq<Item>)
    requires |items| < U32_LIMIT && AllFit(layout, items)
    ensures DecodedPayload(layout, Header(mode, |items|) + Joined(EncodedEach(items))) == Some((mode, AllAsSent(items)))
  {
    var all := Header(mode, |items|) + Joined(EncodedEach(items));
    U32RoundTrip(|items|);
    ItemsRoundTrip(layout, items);
    assert all[2..6] == U32(|items|) && all[6..] == Joined(EncodedEach(items)) && all[1] == mode;
  }

  // ------------------------------------------------ walking round the pool

  /** Item `i` of a batch is the pool entry at `(sequence + i) mod size`. */
  function Cyclic<T>(pool: seq<T>, sequence: nat, count: nat): (r: seq<T>)
    requires pool != []
    ensures |r| == count
  {
    seq(count, i requires 0 <= i => pool[(sequence + i) % |pool|])
  }

  lemma WalkOn(sequence: nat, done: nat, j: nat, size: nat)
    requires size > 0 && (sequence + done) % size + j < size
    ensures (sequence + done + j) % size == (sequence + done) % size + j
  {
    var x := (sequence + done) % size;
    Rotation.ModOfSum(sequence + done, j, size);
    Rotation.ModUnique(x + j, 0, x + j, size);
  }

  /** A slice of the pool is the next stretch of the walk. */
  lemma SliceIsCyclic<T>(pool: seq<T>, sequence: nat, done: nat, cursor: nat, take: nat)
    requires pool != [] && cursor == (sequence + done) % |pool| && cursor + take <= |pool|
    ensures Cyclic(pool, sequence, done) + pool[cursor..cursor + take] == Cyclic(pool, sequence, done + take)
  {
    var r, longer := Cyclic(pool, sequence, done) + pool[cursor..cursor + take], Cyclic(pool, sequence, done + take);
    forall i | 0 <= i < done + take ensures r[i] == longer[i] {
      assert longer[i] == pool[(sequence + i) % |pool|];
      if i >= done {
        WalkOn(sequence, done, i - done, |pool|);
        assert sequence + done + (i - done) == sequence + i;
        assert r[i] == pool[cursor + (i - done)];
      }
    }
  }

  /** Running off the end of the pool comes back to its start. */
  lemma WrapsToZero(sequence: nat, done: nat, take: nat, size: nat)
    requires size > 0 && take == size - (sequence + done) % size
    ensures (sequence + (done + take)) % size == 0
  {
    Rotation.ModOfSum(sequence + done, take, size);
    Rotation.ModUnique(size, 1, 0, size);
  }

  /** `key_batch`: the fast slice and the wrapping loop are the same walk. */
  method KeyBatch<T>(pool: seq<T>, sequence: nat, count: int) returns (keys: seq<T>)
    ensures count <= 0 || pool == [] ==> keys == []
    ensures count > 0 && pool != [] ==> keys == Cyclic(pool, sequence, count)
  {
    var size := |pool|;
    if count <= 0 || size == 0 { return []; }
    var start := sequence % size;
    var end := start + count;
    if end <= size {
      SliceIsCyclic(pool, sequence, 0, start, count);
      assert Cyclic(pool, sequence, 0) == [];
      return pool[start..end];
    }
    keys := [];
    var remaining, cursor := count, start;
    while remaining > 0
      invariant 0 <= remaining <= count && keys == Cyclic(pool, sequence, count - remaining)
      invariant cursor < size && (remaining > 0 ==> cursor == (sequence + (count - remaining)) % size)
    {
      var take := Min(remaining, size - cursor);
      SliceIsCyclic(pool, sequence, count - remaining, cursor, take);
      if take < remaining { WrapsToZero(sequence, count - remaining, take, size); }
      keys := keys + pool[cursor..cursor + take];
      remaining := remaining - take;
      cursor := 0;
    }
  }

  // ------------------------------------------------ what the batches stand for

  predicate PoolFits(keys: seq<Bytes>) { forall i | 0 <= i < |keys| :: Fits(keys[i]) }

  /** `build_wire_key_pool`: every key with its length in front. */
  function WirePool(keys: seq<Bytes>): (r: seq<Bytes>)
    ensures |r| == |keys|
  {
    seq(|keys|, i requires 0 <= i < |keys| => Fragment(keys[i]))
  }

  /** The item that the command of one sequence number carries, as `build_command` makes it. */
  function CommandItem(layout: Layout, keys: seq<Bytes>, sequence: nat, keyCount: nat, value: Bytes): Item
    requires keys != [] && keyCount > 0
  {
    var key := keys[sequence % |keys|];
    match layout
    case Keys => KeyItem(key)
    case Pairs => PairItem(key, value)
    case Scores => ScoreItem(key, sequence % keyCount, value)
  }

  function CommandItems(layout: Layout, keys: seq<Bytes>, sequence: nat, count: nat, keyCount: nat, value: Bytes): (r: seq<Item>)
    requires keys != [] && keyCount > 0
    ensures |r| == count
  {
    seq(count, i requires 0 <= i => CommandItem(layout, keys, sequence + i, keyCount, value))
  }

  function DecimalBytes(n: nat): Bytes {
    if n < 10 then [48 + n] else DecimalBytes(n / 10) + [48 + n % 10]
  }

  /** `benchmark_key`, encoded: the prefix, a colon, and the number modulo the key count. */
  function BenchmarkKey(prefix: Bytes, sequence: nat, keyCount: nat): Bytes
    requires keyCount > 0
  {
    prefix + [58] + DecimalBytes(sequence % keyCount)
  }

  function ReadDecimal(b: Bytes): int {
    if b == [] then 0 else 10 * ReadDecimal(b[..|b| - 1]) + b[|b| - 1] - 48
  }

  /** The digits are ASCII digits, read back as the number, and do not begin with a zero unless it is the only one. */
  lemma {:induction false} DecimalReads(n: nat)
    ensures var b := DecimalBytes(n);
            && ReadDecimal(b) == n && |b| > 0 && (forall i | 0 <= i < |b| :: 48 <= b[i] <= 57)
            && (n > 0 ==> b[0] != 48) && (n == 0 ==> |b| == 1)
  {
    var b := DecimalBytes(n);
    if n >= 10 {
      DecimalReads(n / 10);
      assert b[..|b| - 1] == DecimalBytes(n / 10);
    } else {
      assert ReadDecimal(b[..0]) == 0;
    }
  }

  /** Keys of one prefix are as different as their numbers modulo the key count. */
  lemma KeysIdentifyNumbers(prefix: Bytes, keyCount: nat, m: nat, n: nat)
    requires keyCount > 0
    ensures BenchmarkKey(prefix, m, keyCount) == BenchmarkKey(prefix, n, keyCount) <==> m % keyCount == n % keyCount
    ensures prefix + [58] <= BenchmarkKey(prefix, m, keyCount)
    ensures ReadDecimal(BenchmarkKey(prefix, m, keyCount)[|prefix| + 1..]) == m % keyCount
  {
    DecimalReads(m % keyCount);
    DecimalReads(n % keyCount);
    assert BenchmarkKey(prefix, m, keyCount)[|prefix| + 1..] == DecimalBytes(m % keyCount);
    assert BenchmarkKey(prefix, n, keyCount)[|prefix| + 1..] == DecimalBytes(n % keyCount);
  }

  function KeyPool(prefix: Bytes, keyCount: nat): (r: seq<Bytes>)
    ensures |r| == keyCount
  {
    seq(keyCount, j requires 0 <= j < keyCount => BenchmarkKey(prefix, j, keyCount))
  }

  /** Over the benchmark's own pool, item `i` carries the key and the score of the command number `sequence + i`. */
  lemma ItemsAreCommands(layout: Layout, prefix: Bytes, keyCount: nat, sequence: nat, count: nat, value: Bytes, i: nat)
    requires keyCount > 0 && i < count
    ensures var item := CommandItems(layout, KeyPool(prefix, keyCount), sequence, count, keyCount, value)[i];
            && item.key == BenchmarkKey(prefix, sequence + i, keyCount)
            && (layout.Scores? ==> item.ScoreItem? && item.score == (sequence + i) % keyCount)
  {
    assert CommandItems(layout, KeyPool(prefix, keyCount), sequence, count, keyCount, value)[i]
        == CommandItem(layout, KeyPool(prefix, keyCount), sequence + i, keyCount, value);
    PoolHoldsKey(prefix, keyCount, sequence + i);
  }

  lemma PoolHoldsKey(prefix: Bytes, keyCount: nat, s: nat)
    requires keyCount > 0
    ensures KeyPool(prefix, keyCount)[s % keyCount] == BenchmarkKey(prefix, s, keyCount)
  {
    Rotation.ModUnique(s % keyCount, 0, s % keyCount, keyCount);
    assert KeyPool(prefix, keyCount)[s % keyCount] == BenchmarkKey(prefix, s % keyCount, keyCount);
  }

  predicate BatchOk(keys: seq<Bytes>, keyCount: nat, value: Bytes) {
    keys != [] && PoolFits(keys) && 0 < keyCount && Fits(value)
  }

  /** The score of item `i` is one that `float` accepts. */
  predicate ScoreOk(sequence: nat, i: nat, keyCount: nat)
    requires keyCount > 0
  {
    FloatOk((sequence + i) % keyCount)
  }

  /** Every score of the batch is. */
  predicate ScoresOk(sequence: nat, count: nat, keyCount: nat)
    requires keyCount > 0
  {
    forall i | 0 <= i < count :: ScoreOk(sequence, i, keyCount)
  }

  lemma ItemsFit(layout: Layout, keys: seq<Bytes>, sequence: nat, count: nat, keyCount: nat, value: Bytes)
    requires BatchOk(keys, keyCount, value) && (layout.Scores? ==> ScoresOk(sequence, count, keyCount))
    ensures AllFit(layout, CommandItems(layout, keys, sequence, count, keyCount, value))
  {
    var items := CommandItems(layout, keys, sequence, count, keyCount, value);
    forall i | 0 <= i < count ensures ItemFits(layout, items[i]) {
      assert items[i] == CommandItem(layout, keys, sequence + i, keyCount, value);
      assert Fits(keys[(sequence + i) % |keys|]);
      if layout.Scores? { assert ScoreOk(sequence, i, keyCount); }
    }
  }

  /** The bytes of the command of one sequence number. */
  function Piece(layout: Layout, keys: seq<Bytes>, sequence: nat, keyCount: nat, value: Bytes): Bytes
    requires keys != [] && keyCount > 0
  {
    Encoded(CommandItem(layout, keys, sequence, keyCount, value))
  }

  function Pieces(layout: Layout, keys: seq<Bytes>, sequence: nat, n: nat, keyCount: nat, value: Bytes): (r: seq<Bytes>)
    requires keys != [] && keyCount > 0
    ensures |r| == n
  {
    seq(n, i requires 0 <= i => Piece(layout, keys, sequence + i, keyCount, value))
  }

  /** A batch's payload decodes to the items that the single commands carry, in order. */
  ghost predicate Carries(payload: Bytes, layout: Layout, mode: Byte, keys: seq<Bytes>, sequence: nat, count: nat, keyCount: nat,
                          value: Bytes)
    requires keys != [] && keyCount > 0
  {
    DecodedPayload(layout, payload) == Some((mode, AllAsSent(CommandItems(layout, keys, sequence, count, keyCount, value))))
  }

  lemma PiecesCarry(layout: Layout, mode: Byte, keys: seq<Bytes>, sequence: nat, count: nat, keyCount: nat, value: Bytes)
    requires BatchOk(keys, keyCount, value) && count < U32_LIMIT && (layout.Scores? ==> ScoresOk(sequence, count, keyCount))
    ensures Carries(Header(mode, count) + Joined(Pieces(layout, keys, sequence, count, keyCount, value)), layout, mode, keys,
                    sequence, count, keyCount, value)
  {
    var items := CommandItems(layout, keys, sequence, count, keyCount, value);
    ItemsFit(layout, keys, sequence, count, keyCount, value);
    PayloadRoundTrip(layout, mode, items);
    PiecesAreEncodings(layout, keys, sequence, count, keyCount, value);
  }

  lemma PiecesAreEncodings(layout: Layout, keys: seq<Bytes>, sequence: nat, count: nat, keyCount: nat, value: Bytes)
    requires keys != [] && keyCount > 0
    ensures Pieces(layout, keys, sequence, count, keyCount, value)
         == EncodedEach(CommandItems(layout, keys, sequence, count, keyCount, value))
  {
    var items := CommandItems(layout, keys, sequence, count, keyCount, value);
    forall i | 0 <= i < count ensures Pieces(layout, keys, sequence, count, keyCount, value)[i] == EncodedEach(items)[i] {
      assert items[i] == CommandItem(layout, keys, sequence + i, keyCount, value);
    }
  }

  lemma KeyPiece(keys: seq<Bytes>, sequence: nat)
    requires keys != []
    ensures Piece(Keys, keys, sequence, 1, []) == Fragment(keys[sequence % |keys|])
  {
  }

  lemma WireIsPieces(keys: seq<Bytes>, sequence: nat, n: nat)
    requires keys != []
    ensures Cyclic(WirePool(keys), sequence, n) == Pieces(Keys, keys, sequence, n, 1, [])
  {
    forall i | 0 <= i < n ensures Cyclic(WirePool(keys), sequence, n)[i] == Pieces(Keys, keys, sequence, n, 1, [])[i] {
      var k := (sequence + i) % |keys|;
      assert Cyclic(WirePool(keys), sequence, n)[i] == WirePool(keys)[k];
      assert WirePool(keys)[k] == Fragment(keys[k]);
      assert Pieces(Keys, keys, sequence, n, 1, [])[i] == Piece(Keys, keys, sequence + i, 1, []);
      KeyPiece(keys, sequence + i);
    }
  }

  lemma KeyPartsCarry(parts: seq<Bytes>, header: Bytes, mode: Byte, keys: seq<Bytes>, sequence: nat, count: nat)
    requires keys != [] && PoolFits(keys) && count < U32_LIMIT && header == Header(mode, count)
    requires parts == [header] + Cyclic(WirePool(keys), sequence, count)
    ensures Carries(Joined(parts), Keys, mode, keys, sequence, count, 1, [])
  {
    PiecesCarry(Keys, mode, keys, sequence, count, 1, []);
    WireIsPieces(keys, sequence, count);
    JoinedConcat([header], Cyclic(WirePool(keys), sequence, count));
    JoinedOne(header);
  }

  lemma KeySliceIsPieces(keys: seq<Bytes>, sequence: nat, count: nat)
    requires keys != [] && sequence % |keys| + count <= |keys|
    ensures WirePool(keys)[sequence % |keys|..sequence % |keys| + count] == Pieces(Keys, keys, sequence, count, 1, [])
  {
    var wire, start := WirePool(keys), sequence % |keys|;
    assert (sequence + 0) % |wire| == start;
    SliceIsCyclic(wire, sequence, 0, start, count);
    assert Cyclic(wire, sequence, 0) + wire[start..start + count] == wire[start..start + count];
    WireIsPieces(keys, sequence, count);
  }

  /** The state of a payload under construction: the header and the first `n` commands. */
  ghost predicate BuiltUpTo(parts: seq<Bytes>, header: Bytes, pieces: seq<Bytes>) {
    Joined(parts) == header + Joined(pieces)
  }

  lemma NothingBuilt(header: Bytes)
    ensures BuiltUpTo([header], header, [])
  {
    JoinedOne(header);
  }

  lemma BuiltTwoMore(parts: seq<Bytes>, header: Bytes, pieces: seq<Bytes>, a: Bytes, b: Bytes)
    requires BuiltUpTo(parts, header, pieces)
    ensures BuiltUpTo(parts + [a] + [b], header, pieces + [a + b])
  {
    JoinedOneMore(parts, a);
    JoinedOneMore(parts + [a], b);
    JoinedOneMore(pieces, a + b);
    Associative(Joined(parts), a, b);
    Associative(header, Joined(pieces), a + b);
  }

  lemma BuiltThreeMore(parts: seq<Bytes>, header: Bytes, pieces: seq<Bytes>, a: Bytes, b: Bytes, c: Bytes)
    requires BuiltUpTo(parts, header, pieces)
    ensures BuiltUpTo(parts + [a] + [b] + [c], header, pieces + [a + (b + c)])
  {
    JoinedOneMore(parts, a);
    JoinedOneMore(parts + [a], b);
    JoinedOneMore(parts + [a] + [b], c);
    JoinedOneMore(pieces, a + (b + c));
    Associative(Joined(parts) + a, b, c);
    Associative(Joined(parts), a, b + c);
    Associative(header, Joined(pieces), a + (b + c));
  }

  lemma PiecesGrow(layout: Layout, keys: seq<Bytes>, sequence: nat, n: nat, keyCount: nat, value: Bytes)
    requires keys != [] && keyCount > 0
    ensures Pieces(layout, keys, sequence, n + 1, keyCount, value)
         == Pieces(layout, keys, sequence, n, keyCount, value) + [Piece(layout, keys, sequence + n, keyCount, value)]
  {
  }

  // ------------------------------------------------ the payload builders

  /** `wire_key_payload_batch` and, for other modes, `wire_key_only_payload_batch`; packing a count of 2^32 or more raises. */
  method WireKeyPayloadBatch(wire: seq<Bytes>, sequence: nat, count: int, mode: Byte, ghost keys: seq<Bytes>)
    returns (payload: Option<Bytes>)
    requires PoolFits(keys) && wire == WirePool(keys)
    ensures count <= 0 || wire == [] ==> payload == Some([])
    ensures count > 0 && wire != [] ==> (payload.Some? <==> count < U32_LIMIT)
    ensures count > 0 && wire != [] && payload.Some? ==> Carries(payload.value, Keys, mode, keys, sequence, count, 1, [])
  {
    if count <= 0 || |wire| == 0 { return Some([]); }
    if count >= U32_LIMIT { return None; }
    var header := Header(mode, count);
    var start := sequence % |wire|;
    if start + count <= |wire| {
      KeySliceIsPieces(keys, sequence, count);
      PiecesCarry(Keys, mode, keys, sequence, count, 1, []);
      return Some(header + Joined(wire[start..start + count]));
    }
    var parts := WrappedParts(header, wire, sequence, count);
    KeyPartsCarry(parts, header, mode, keys, sequence, count);
    return Some(Joined(parts));
  }

  /** Its wrapping loop. */
  method WrappedParts(header: Bytes, wire: seq<Bytes>, sequence: nat, count: nat) returns (parts: seq<Bytes>)
    requires wire != []
    ensures parts == [header] + Cyclic(wire, sequence, count)
  {
    parts := [header];
    var size := |wire|;
    var remaining, cursor := count, sequence % size;
    while remaining > 0
      invariant 0 <= remaining <= count && parts == [header] + Cyclic(wire, sequence, count - remaining)
      invariant cursor < size && (remaining > 0 ==> cursor == (sequence + (count - remaining)) % size)
    {
      var take := Min(remaining, size - cursor);
      SliceIsCyclic(wire, sequence, count - remaining, cursor, take);
      if take < remaining { WrapsToZero(sequence, count - remaining, take, size); }
      assert [header] + Cyclic(wire, sequence, count - remaining) + wire[cursor..cursor + take]
          == [header] + (Cyclic(wire, sequence, count - remaining) + wire[cursor..cursor + take]);
      parts := parts + wire[cursor..cursor + take];
      remaining := remaining - take;
      cursor := 0;
    }
  }

  /** The inner loop of `wire_key_value_payload_batch`: one stretch of the pool. */
  method PairStretch(parts: seq<Bytes>, wire: seq<Bytes>, ghost sequence: nat, ghost done: nat, cursor: nat, take: nat,
                     valueFragment: Bytes, ghost header: Bytes, ghost keys: seq<Bytes>, ghost value: Bytes)
    returns (longer: seq<Bytes>)
    requires keys != [] && wire == WirePool(keys) && valueFragment == Fragment(value)
    requires cursor == (sequence + done) % |wire| && cursor + take <= |wire|
    requires BuiltUpTo(parts, header, Pieces(Pairs, keys, sequence, done, 1, value))
    ensures BuiltUpTo(longer, header, Pieces(Pairs, keys, sequence, done + take, 1, value))
  {
    longer := parts;
    for j := 0 to take
      invariant BuiltUpTo(longer, header, Pieces(Pairs, keys, sequence, done + j, 1, value))
    {
      PairGrows(keys, sequence, done, j, value, wire[cursor + j]);
      BuiltTwoMore(longer, header, Pieces(Pairs, keys, sequence, done + j, 1, value), wire[cursor + j], valueFragment);
      longer := longer + [wire[cursor + j]] + [valueFragment];
    }
  }

  lemma PairPiece(keys: seq<Bytes>, sequence: nat, done: nat, j: nat, value: Bytes)
    requires keys != [] && (sequence + done) % |keys| + j < |keys|
    ensures Piece(Pairs, keys, sequence + (done + j), 1, value) == WirePool(keys)[(sequence + done) % |keys| + j] + Fragment(value)
  {
    WalkOn(sequence, done, j, |keys|);
    assert sequence + (done + j) == sequence + done + j;
  }

  lemma ScorePiece(keys: seq<Bytes>, sequence: nat, done: nat, j: nat, keyCount: nat, member: Bytes)
    requires keys != [] && keyCount > 0 && (sequence + done) % |keys| + j < |keys|
    ensures Piece(Scores, keys, sequence + (done + j), keyCount, member)
         == WirePool(keys)[(sequence + done) % |keys| + j] + (F64((sequence + done + j) % keyCount) + Fragment(member))
  {
    WalkOn(sequence, done, j, |keys|);
    assert sequence + (done + j) == sequence + done + j;
  }

  /** The next pair is the next key fragment of the pool and the value. */
  lemma PairGrows(keys: seq<Bytes>, sequence: nat, done: nat, j: nat, value: Bytes, fragment: Bytes)
    requires keys != [] && (sequence + done) % |keys| + j < |keys|
    requires fragment == WirePool(keys)[(sequence + done) % |keys| + j]
    ensures Pieces(Pairs, keys, sequence, done + j + 1, 1, value)
         == Pieces(Pairs, keys, sequence, done + j, 1, value) + [fragment + Fragment(value)]
  {
    PairPiece(keys, sequence, done, j, value);
    PiecesGrow(Pairs, keys, sequence, done + j, 1, value);
  }

  lemma ScoreGrows(keys: seq<Bytes>, sequence: nat, done: nat, j: nat, keyCount: nat, member: Bytes, fragment: Bytes, score: Bytes)
    requires keys != [] && keyCount > 0 && (sequence + done) % |keys| + j < |keys|
    requires fragment == WirePool(keys)[(sequence + done) % |keys| + j] && score == F64((sequence + done + j) % keyCount)
    ensures Pieces(Scores, keys, sequence, done + j + 1, keyCount, member)
         == Pieces(Scores, keys, sequence, done + j, keyCount, member) + [fragment + (score + Fragment(member))]
  {
    ScorePiece(keys, sequence, done, j, keyCount, member);
    PiecesGrow(Scores, keys, sequence, done + j, keyCount, member);
  }

  /** `wire_key_value_payload_batch`. */
  method WireKeyValuePayloadBatch(wire: seq<Bytes>, sequence: nat, count: int, valueFragment: Bytes, mode: Byte,
                                  ghost keys: seq<Bytes>, ghost value: Bytes) returns (payload: Option<Bytes>)
    requires PoolFits(keys) && wire == WirePool(keys) && Fits(value) && valueFragment == Fragment(value)
    ensures count <= 0 || wire == [] ==> payload == Some([])
    ensures count > 0 && wire != [] ==> (payload.Some? <==> count < U32_LIMIT)
    ensures count > 0 && wire != [] && payload.Some? ==> Carries(payload.value, Pairs, mode, keys, sequence, count, 1, value)
  {
    var size := |wire|;
    if count <= 0 || size == 0 { return Some([]); }
    if count >= U32_LIMIT { return None; }
    var parts := PairParts(Header(mode, count), wire, sequence, count, valueFragment, keys, value);
    BuiltCarries(parts, Pairs, mode, keys, sequence, count, 1, value);
    return Some(Joined(parts));
  }

  /** Its outer loop. */
  method PairParts(header: Bytes, wire: seq<Bytes>, sequence: nat, count: nat, valueFragment: Bytes,
                   ghost keys: seq<Bytes>, ghost value: Bytes) returns (parts: seq<Bytes>)
    requires keys != [] && wire == WirePool(keys) && valueFragment == Fragment(value)
    ensures BuiltUpTo(parts, header, Pieces(Pairs, keys, sequence, count, 1, value))
  {
    var size := |wire|;
    parts := [header];
    NothingBuilt(header);
    var remaining, cursor := count, sequence % size;
    while remaining > 0
      invariant 0 <= remaining <= count
      invariant BuiltUpTo(parts, header, Pieces(Pairs, keys, sequence, count - remaining, 1, value))
      invariant cursor < size && (remaining > 0 ==> cursor == (sequence + (count - remaining)) % size)
    {
      var take := Min(remaining, size - cursor);
      if take < remaining { WrapsToZero(sequence, count - remaining, take, size); }
      parts := PairStretch(parts, wire, sequence, count - remaining, cursor, take, valueFragment, header, keys, value);
      remaining := remaining - take;
      cursor := 0;
    }
  }

  lemma BuiltCarries(parts: seq<Bytes>, layout: Layout, mode: Byte, keys: seq<Bytes>, sequence: nat, count: nat, keyCount: nat,
                     value: Bytes)
    requires BatchOk(keys, keyCount, value) && count < U32_LIMIT && (layout.Scores? ==> ScoresOk(sequence, count, keyCount))
    requires BuiltUpTo(parts, Header(mode, count), Pieces(layout, keys, sequence, count, keyCount, value))
    ensures Carries(Joined(parts), layout, mode, keys, sequence, count, keyCount, value)
  {
    PiecesCarry(layout, mode, keys, sequence, count, keyCount, value);
  }

  const ZADD_MODE: Byte := 0x80 + 26

  lemma ScoresOneMore(sequence: nat, count: nat, keyCount: nat)
    requires keyCount > 0
    ensures ScoresOk(sequence, count + 1, keyCount) <==> ScoresOk(sequence, count, keyCount) && ScoreOk(sequence, count, keyCount)
  {
    if ScoresOk(sequence, count + 1, keyCount) {
      assert ScoreOk(sequence, count, keyCount);
    }
  }

  /** The inner loop of `wire_zadd_payload_batch`, which also moves the score on; `None` when a score overflows. */
  method ScoreStretch(parts: seq<Bytes>, wire: seq<Bytes>, ghost sequence: nat, ghost done: nat, cursor: nat, take: nat,
                      keyCount: nat, scoreSequence: nat, memberFragment: Bytes,
                      ghost header: Bytes, ghost keys: seq<Bytes>, ghost member: Bytes)
    returns (longer: Option<seq<Bytes>>, moved: nat)
    requires keys != [] && keyCount > 0 && wire == WirePool(keys) && memberFragment == Fragment(member)
    requires cursor == (sequence + done) % |wire| && cursor + take <= |wire| && scoreSequence == sequence + done
    requires BuiltUpTo(parts, header, Pieces(Scores, keys, sequence, done, keyCount, member)) && ScoresOk(sequence, done, keyCount)
    ensures longer.Some? ==> BuiltUpTo(longer.value, header, Pieces(Scores, keys, sequence, done + take, keyCount, member))
    ensures longer.Some? ==> moved == scoreSequence + take && ScoresOk(sequence, done + take, keyCount)
    ensures longer.None? ==> !ScoresOk(sequence, done + take, keyCount)
  {
    var grown := parts;
    moved := scoreSequence;
    for j := 0 to take
      invariant BuiltUpTo(grown, header, Pieces(Scores, keys, sequence, done + j, keyCount, member))
      invariant moved == scoreSequence + j && ScoresOk(sequence, done + j, keyCount)
    {
      assert ScoreOk(sequence, done + j, keyCount) <==> FloatOk(moved % keyCount);
      if !FloatOk(moved % keyCount) { return None, moved; }
      ScoresOneMore(sequence, done + j, keyCount);
      var score := F64(moved % keyCount);
      ScoreGrows(keys, sequence, done, j, keyCount, member, wire[cursor + j], score);
      BuiltThreeMore(grown, header, Pieces(Scores, keys, sequence, done + j, keyCount, member), wire[cursor + j], score,
                     memberFragment);
      grown := grown + [wire[cursor + j]] + [score] + [memberFragment];
      moved := moved + 1;
    }
    longer := Some(grown);
  }

  /**
   `wire_zadd_payload_batch`: each key is paired with the score that its own
   command would carry.  A key count of zero, a score beyond the doubles and a
   count of 2^32 or more raise.
   */
  method WireZaddPayloadBatch(wire: seq<Bytes>, sequence: nat, count: int, keyCount: nat, memberFragment: Bytes,
                              ghost keys: seq<Bytes>, ghost member: Bytes) returns (payload: Option<Bytes>)
    requires PoolFits(keys) && wire == WirePool(keys) && Fits(member) && memberFragment == Fragment(member)
    ensures count <= 0 || wire == [] ==> payload == Some([])
    ensures count > 0 && wire != [] ==>
              (payload.Some? <==> count < U32_LIMIT && keyCount > 0 && ScoresOk(sequence, count, keyCount))
    ensures count > 0 && wire != [] && payload.Some? ==>
              Carries(payload.value, Scores, ZADD_MODE, keys, sequence, count, keyCount, member)
  {
    var size := |wire|;
    if count <= 0 || size == 0 { return Some([]); }
    if count >= U32_LIMIT || keyCount == 0 { return None; }
    var parts := ScoreParts(Header(ZADD_MODE, count), wire, sequence, count, keyCount, memberFragment, keys, member);
    if parts.None? { return None; }
    BuiltCarries(parts.value, Scores, ZADD_MODE, keys, sequence, count, keyCount, member);
    return Some(Joined(parts.value));
  }

  /** Its outer loop. */
  method ScoreParts(header: Bytes, wire: seq<Bytes>, sequence: nat, count: nat, keyCount: nat, memberFragment: Bytes,
                    ghost keys: seq<Bytes>, ghost member: Bytes) returns (parts: Option<seq<Bytes>>)
    requires keys != [] && keyCount > 0 && wire == WirePool(keys) && memberFragment == Fragment(member)
    ensures parts.Some? <==> ScoresOk(sequence, count, keyCount)
    ensures parts.Some? ==> BuiltUpTo(parts.value, header, Pieces(Scores, keys, sequence, count, keyCount, member))
  {
    var size := |wire|;
    var built := [header];
    NothingBuilt(header);
    var remaining, cursor, scoreSequence := count, sequence % size, sequence;
    while remaining > 0
      invariant 0 <= remaining <= count && scoreSequence == sequence + (count - remaining)
      invariant BuiltUpTo(built, header, Pieces(Scores, keys, sequence, count - remaining, keyCount, member))
      invariant ScoresOk(sequence, count - remaining, keyCount)
      invariant cursor < size && (remaining > 0 ==> cursor == (sequence + (count - remaining)) % size)
    {
      var take := Min(remaining, size - cursor);
      if take < remaining { WrapsToZero(sequence, count - remaining, take, size); }
      var longer;
      longer, scoreSequence := ScoreStretch(built, wire, sequence, count - remaining, cursor, take, keyCount, scoreSequence,
                                            memberFragment, header, keys, member);
      if longer.None? { return None; }
      built := longer.value;
      remaining := remaining - take;
      cursor := 0;
    }
    parts := Some(built);
  }
}
