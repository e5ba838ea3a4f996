/** UTF-8, section 3 of RFC 3629, with the strict decoder that Python uses. */
module Utf8 {
  import opened Common

  predicate IsScalar(c: nat) { c < 0xD800 || 0xE000 <= c <= 0x10FFFF }

  type Scalar = c: nat | IsScalar(c)
  type Text = seq<Scalar>

  function EncodeChar(c: Scalar): (r: seq<nat>)
    ensures 1 <= |r| <= 4
  {
    if c < 0x80 then [c]
    else if c < 0x800 then [0xC0 + c / 64, 0x80 + c % 64]
    else if c < 0x1_0000 then [0xE0 + c / 4096, 0x80 + c / 64 % 64, 0x80 + c % 64]
    else [0xF0 + c / 262144, 0x80 + c / 4096 % 64, 0x80 + c / 64 % 64, 0x80 + c % 64]
  }

  function Encode(s: Text): seq<nat> {
    if s == [] then [] else EncodeChar(s[0]) + Encode(s[1..])
  }

  predicate Continuation(b: nat) { 0x80 <= b < 0xC0 }

  /** How many bytes a sequence has, by its first byte; 0 for a byte that starts none. */
  function Width(lead: nat): nat {
    if lead < 0x80 then 1
    else if 0xC2 <= lead < 0xE0 then 2
    else if 0xE0 <= lead < 0xF0 then 3
    else if 0xF0 <= lead < 0xF5 then 4
    else 0
  }

  /** The number a sequence of the right width stands for, if it is well formed. */
  function Assembled(b: seq<nat>): Option<nat>
    requires b != [] && |b| == Width(b[0])
  {
    if |b| == 1 then Some(b[0])
    else if !(forall i | 1 <= i < |b| :: Continuation(b[i])) then None
    else if |b| == 2 then Some((b[0] - 0xC0) * 64 + (b[1] - 0x80))
    else if |b| == 3 then
      var c := ((b[0] - 0xE0) * 64 + (b[1] - 0x80)) * 64 + (b[2] - 0x80);
      if c < 0x800 then None else Some(c)
    else
      var c := (((b[0] - 0xF0) * 64 + (b[1] - 0x80)) * 64 + (b[2] - 0x80)) * 64 + (b[3] - 0x80);
      if c < 0x1_0000 then None else Some(c)
  }

  function DecodeChar(b: seq<nat>): Option<Scalar>
    requires b != []
  {
    var w := Width(b[0]);
    if w == 0 || |b| < w then None
    else
      var c := Assembled(b[..w]);
      if c.Some? && IsScalar(c.value) then Some(c.value) else None
  }

  function Decode(b: seq<nat>): Option<Text> {
    if b == [] then Some([])
    else
      var c := DecodeChar(b);
      if c.None? then None
      else
        var rest := Decode(b[Width(b[0])..]);
        if rest.None? then None else Some([c.value] + rest.value)
  }

  lemma WidthIsLength(c: Scalar)
    ensures Width(EncodeChar(c)[0]) == |EncodeChar(c)|
  {
    assert IsScalar(c);
  }

  lemma CharRoundTrip(c: Scalar, rest: seq<nat>)
    ensures DecodeChar(EncodeChar(c) + rest) == Some(c)
  {
    assert IsScalar(c);
    var e := EncodeChar(c);
    WidthIsLength(c);
    assert (e + rest)[..|e|] == e;
    if 0x800 <= c < 0x1_0000 {
      assert c / 64 / 64 == c / 4096;
      assert c / 64 == c / 4096 * 64 + c / 64 % 64;
    } else if c >= 0x1_0000 {
      assert c / 4096 / 64 == c / 262144;
      assert c / 4096 == c / 262144 * 64 + c / 4096 % 64;
      assert c / 64 / 64 == c / 4096;
      assert c / 64 == c / 4096 * 64 + c / 64 % 64;
    }
  }

  /** The rows of the syntax in section 4 of RFC 3629, with the number that each stands for. */
  predicate TwoBytes(r: seq<nat>, c: nat) {
    |r| == 2 && 0xC2 <= r[0] <= 0xDF && Continuation(r[1]) && c == (r[0] - 0xC0) * 64 + (r[1] - 0x80)
  }

  predicate ThreeBytes(r: seq<nat>, c: nat) {
    && |r| == 3 && 0xE0 <= r[0] <= 0xEF && Continuation(r[1]) && Continuation(r[2])
    && (r[0] == 0xE0 ==> r[1] >= 0xA0) && (r[0] == 0xED ==> r[1] <= 0x9F)
    && c == (r[0] - 0xE0) * 4096 + (r[1] - 0x80) * 64 + (r[2] - 0x80)
  }

  predicate FourBytes(r: seq<nat>, c: nat) {
    && |r| == 4 && 0xF0 <= r[0] <= 0xF4 && Continuation(r[1]) && Continuation(r[2]) && Continuation(r[3])
    && (r[0] == 0xF0 ==> r[1] >= 0x90) && (r[0] == 0xF4 ==> r[1] <= 0x8F)
    && c == (r[0] - 0xF0) * 262144 + (r[1] - 0x80) * 4096 + (r[2] - 0x80) * 64 + (r[3] - 0x80)
  }

  lemma ThreeByteRow(c: Scalar)
    requires 0x800 <= c < 0x1_0000
    ensures ThreeBytes(EncodeChar(c), c)
  {
    assert IsScalar(c);
    assert c / 64 / 64 == c / 4096;
    assert c / 64 == c / 4096 * 64 + c / 64 % 64;
  }

  lemma FourByteRow(c: Scalar)
    requires c >= 0x1_0000
    ensures FourBytes(EncodeChar(c), c)
  {
    assert IsScalar(c);
    assert c / 4096 / 64 == c / 262144;
    assert c / 4096 == c / 262144 * 64 + c / 4096 % 64;
    assert c / 64 / 64 == c / 4096;
    assert c / 64 == c / 4096 * 64 + c / 64 % 64;
  }

  /** Every character is encoded by the row of its range. */
  lemma EncodesByTheTable(c: Scalar)
    ensures c < 0x80 ==> EncodeChar(c) == [c]
    ensures 0x80 <= c < 0x800 ==> TwoBytes(EncodeChar(c), c)
    ensures 0x800 <= c < 0x1_0000 ==> ThreeBytes(EncodeChar(c), c)
    ensures 0x1_0000 <= c ==> FourBytes(EncodeChar(c), c)
  {
    if c >= 0x1_0000 { FourByteRow(c); } else if c >= 0x800 { ThreeByteRow(c); }
  }

  /** A character cut short does not decode. */
  lemma TruncatedChar(c: Scalar, rest: seq<nat>, n: nat)
    requires 0 < n < |EncodeChar(c)|
    ensures Decode((EncodeChar(c) + rest)[..n]).None?
  {
    WidthIsLength(c);
    assert (EncodeChar(c) + rest)[..n][0] == EncodeChar(c)[0];
  }

  /** A byte column is a character boundary of `s`, after `k` characters. */
  predicate BoundaryAt(s: Text, column: nat, k: nat) {
    k <= |s| && |Encode(s[..k])| == column
  }

  lemma {:induction false} DecodePrefix(s: Text, column: nat)
    requires column <= |Encode(s)|
    ensures var d := Decode(Encode(s)[..column]);
            && (d.Some? ==> BoundaryAt(s, column, |d.value|) && d.value == s[..|d.value|])
            && forall k: nat :: BoundaryAt(s, column, k) ==> d.Some? && |d.value| == k
    decreases |s|
  {
    if s == [] || column == 0 {
      ZeroBoundary(s);
    } else {
      var e, rest := EncodeChar(s[0]), Encode(s[1..]);
      if column < |e| {
        TruncatedChar(s[0], rest, column);
        forall k: nat ensures !BoundaryAt(s, column, k) { NotInsideChar(s, column, k); }
      } else {
        DecodePrefix(s[1..], column - |e|);
        PrefixSplits(s, column);
        forall k: nat | BoundaryAt(s, column, k) ensures k > 0 && BoundaryAt(s[1..], column - |e|, k - 1) {
          BoundaryShifts(s, column, k);
        }
        var d := Decode(Encode(s)[..column]);
        if d.Some? { BoundaryUnshifts(s, column - |e|, |d.value| - 1); }
      }
    }
  }

  lemma ZeroBoundary(s: Text)
    ensures BoundaryAt(s, 0, 0) && forall k: nat :: BoundaryAt(s, 0, k) ==> k == 0
    ensures Decode(Encode(s)[..0]) == Some([])
  {
    forall k: nat | BoundaryAt(s, 0, k) ensures k == 0 {
      if k > 0 { EncodesSomething(s[..k]); }
    }
  }

  lemma EncodesSomething(s: Text)
    requires s != []
    ensures |Encode(s)| > 0
  {
  }

  lemma NotInsideChar(s: Text, column: nat, k: nat)
    requires s != [] && 0 < column < |EncodeChar(s[0])|
    ensures !BoundaryAt(s, column, k)
  {
    if 0 < k <= |s| { assert s[..k][0] == s[0]; }
  }

  lemma BoundaryShifts(s: Text, column: nat, k: nat)
    requires s != [] && BoundaryAt(s, column, k) && column >= |EncodeChar(s[0])|
    ensures k > 0 && BoundaryAt(s[1..], column - |EncodeChar(s[0])|, k - 1)
  {
    if k > 0 { assert s[..k][0] == s[0] && s[..k][1..] == s[1..][..k - 1]; }
  }

  lemma BoundaryUnshifts(s: Text, column: nat, k: nat)
    requires s != [] && BoundaryAt(s[1..], column, k)
    ensures BoundaryAt(s, column + |EncodeChar(s[0])|, k + 1)
  {
    assert s[..k + 1][0] == s[0] && s[..k + 1][1..] == s[1..][..k];
  }

  lemma DecodeBehind(c: Scalar, tail: seq<nat>)
    ensures var d, rest := Decode(EncodeChar(c) + tail), Decode(tail);
            (d.Some? <==> rest.Some?) && (d.Some? ==> d.value == [c] + rest.value)
  {
    var e := EncodeChar(c);
    CharRoundTrip(c, tail);
    WidthIsLength(c);
    assert (e + tail)[0] == e[0] && (e + tail)[|e|..] == tail;
  }

  lemma PrefixSplits(s: Text, column: nat)
    requires s != [] && |EncodeChar(s[0])| <= column <= |Encode(s)|
    ensures var e := EncodeChar(s[0]);
            var d, rest := Decode(Encode(s)[..column]), Decode(Encode(s[1..])[..column - |e|]);
            (d.Some? <==> rest.Some?) && (d.Some? ==> d.value == [s[0]] + rest.value)
  {
    var e, tail := EncodeChar(s[0]), Encode(s[1..])[..column - |EncodeChar(s[0])|];
    assert Encode(s)[..column] == e + tail;
    DecodeBehind(s[0], tail);
  }

  /** Decoding undoes encoding. */
  lemma RoundTrip(s: Text)
    ensures Decode(Encode(s)) == Some(s)
  {
    DecodePrefix(s, |Encode(s)|);
    assert s[..|s|] == s && Encode(s)[..|Encode(s)|] == Encode(s);
    assert BoundaryAt(s, |Encode(s)|, |s|);
  }
}

/**
 The source rewriting of the command generator: byte columns are turned into
 character offsets, and the replacements are applied from right to left.
 */
module SourceEdits {
  import opened Common
  import opened Utf8

  // ------------------------------------------------ offsets

  function Concat(lines: seq<Text>): Text {
    if lines == [] then [] else Concat(lines[..|lines| - 1]) + lines[|lines| - 1]
  }

  /** The offsets of the lines: each is the length of all the text before it. */
  method LineOffsets(lines: seq<Text>) returns (offsets: seq<nat>)
    ensures |offsets| == |lines|
    ensures forall i | 0 <= i < |lines| :: offsets[i] == |Concat(lines[..i])|
  {
    offsets := [];
    var offset := 0;
    for n := 0 to |lines|
      invariant |offsets| == n && offset == |Concat(lines[..n])|
      invariant forall i | 0 <= i < n :: offsets[i] == |Concat(lines[..i])|
    {
      offsets := offsets + [offset];
      offset := offset + |lines[n]|;
      assert lines[..n + 1][..n] == lines[..n];
    }
  }

  /** `_source_offset`; a column inside a character is a decoding error, one past the end is clamped. */
  function SourceOffset(lines: seq<Text>, offsets: seq<nat>, lineno: nat, column: nat): Option<nat>
    requires 1 <= lineno <= |lines| == |offsets|
  {
    var bytes := Encode(lines[lineno - 1]);
    var d := Decode(bytes[..Min(column, |bytes|)]);
    if d.None? then None else Some(offsets[lineno - 1] + |d.value|)
  }

  lemma {:induction false} ConcatSplits(lines: seq<Text>, i: nat)
    requires i < |lines|
    ensures |Concat(lines[..i])| + |lines[i]| <= |Concat(lines)|
    ensures Concat(lines)[..|Concat(lines[..i])|] == Concat(lines[..i])
    ensures Concat(lines)[|Concat(lines[..i])|..|Concat(lines[..i])| + |lines[i]|] == lines[i]
    decreases |lines|
  {
    var n := |lines| - 1;
    if i < n {
      ConcatSplits(lines[..n], i);
      assert lines[..n][..i] == lines[..i];
    }
  }

  /**
   A byte column maps to a character offset if and only if, cut off at the end of
   the line, it is a character boundary; and then the offset is where that
   character stands in the whole source.
   */
  lemma OffsetIffBoundary(lines: seq<Text>, offsets: seq<nat>, lineno: nat, column: nat)
    requires 1 <= lineno <= |lines| == |offsets|
    requires forall i | 0 <= i < |lines| :: offsets[i] == |Concat(lines[..i])|
    ensures var line, r := lines[lineno - 1], SourceOffset(lines, offsets, lineno, column);
            && (r.Some? <==> exists k: nat :: BoundaryAt(line, Min(column, |Encode(line)|), k))
            && (r.Some? ==> offsets[lineno - 1] <= r.value <= |Concat(lines)|
                            && var k := r.value - offsets[lineno - 1];
                               BoundaryAt(line, Min(column, |Encode(line)|), k)
                               && Concat(lines)[..r.value] == Concat(lines[..lineno - 1]) + line[..k])
  {
    var line := lines[lineno - 1];
    DecodePrefix(line, Min(column, |Encode(line)|));
    ConcatSplits(lines, lineno - 1);
    var r := SourceOffset(lines, offsets, lineno, column);
    if r.Some? {
      var before, k := Concat(lines[..lineno - 1]), r.value - offsets[lineno - 1];
      assert Concat(lines)[..r.value] == before + line[..k] by {
        assert Concat(lines)[..r.value] == Concat(lines)[..|before|] + Concat(lines)[|before|..|before| + |line|][..k];
      }
    }
  }

  // ------------------------------------------------ edits

  /** Replace the characters from `start` up to `end` by `text`. */
  datatype Edit = Edit(start: nat, end: nat, text: Text)
  {
    predicate Touches(p: nat) { start <= p < end }
    function Growth(): int { |text| - (end - start) }
  }

  /** One round of the loop; slices past the end are cut off, as Python does. */
  function Replaced(s: Text, e: Edit): Text {
    s[..Min(e.start, |s|)] + e.text + s[Min(e.end, |s|)..]
  }

  predicate TextBefore(a: Text, b: Text) {
    a == [] || (b != [] && (a[0] < b[0] || (a[0] == b[0] && TextBefore(a[1..], b[1..]))))
  }

  /** The order of the tuples `(start, end, replacement)`. */
  predicate Before(a: Edit, b: Edit) {
    a.start < b.start || (a.start == b.start && (a.end < b.end || (a.end == b.end && TextBefore(a.text, b.text))))
  }

  function Inserted(e: Edit, sorted: seq<Edit>): seq<Edit> {
    if sorted == [] || Before(e, sorted[0]) then [e] + sorted else [sorted[0]] + Inserted(e, sorted[1..])
  }

  function Sorted(edits: seq<Edit>): seq<Edit> {
    if edits == [] then [] else Inserted(edits[0], Sorted(edits[1..]))
  }

  predicate Ascending(edits: seq<Edit>) {
    forall i, j | 0 <= i < j < |edits| :: edits[i].start <= edits[j].start
  }

  lemma HeadOut(s: seq<Edit>)
    requires s != []
    ensures multiset(s) == multiset(s[1..]) + multiset{s[0]}
  {
    assert s == [s[0]] + s[1..];
  }

  lemma {:induction false} InsertedPermutes(e: Edit, sorted: seq<Edit>)
    ensures multiset(Inserted(e, sorted)) == multiset(sorted) + multiset{e}
    decreases |sorted|
  {
    HeadOut(Inserted(e, sorted));
    if sorted == [] || Before(e, sorted[0]) {
      assert Inserted(e, sorted)[1..] == sorted;
    } else {
      assert Inserted(e, sorted)[1..] == Inserted(e, sorted[1..]);
      InsertedPermutes(e, sorted[1..]);
      HeadOut(sorted);
    }
  }

  predicate NoneStartsBefore(edits: seq<Edit>, start: nat) {
    forall i | 0 <= i < |edits| :: start <= edits[i].start
  }

  lemma AscendingOneMore(first: Edit, rest: seq<Edit>)
    requires Ascending(rest) && NoneStartsBefore(rest, first.start)
    ensures Ascending([first] + rest)
  {
    var s := [first] + rest;
    forall i, j | 0 <= i < j < |s| ensures s[i].start <= s[j].start {
      assert s[j] == rest[j - 1];
      if i > 0 { assert s[i] == rest[i - 1]; }
    }
  }

  lemma AscendingParts(s: seq<Edit>)
    requires Ascending(s) && s != []
    ensures Ascending(s[1..]) && NoneStartsBefore(s, s[0].start) && NoneStartsBefore(s[1..], s[0].start)
  {
  }

  lemma {:induction false} InsertedAscends(e: Edit, sorted: seq<Edit>, start: nat)
    requires Ascending(sorted) && NoneStartsBefore(sorted, start) && start <= e.start
    ensures Ascending(Inserted(e, sorted)) && NoneStartsBefore(Inserted(e, sorted), start)
    decreases |sorted|
  {
    if sorted != [] {
      AscendingParts(sorted);
      if Before(e, sorted[0]) {
        AscendingOneMore(e, sorted);
      } else {
        InsertedAscends(e, sorted[1..], sorted[0].start);
        AscendingOneMore(sorted[0], Inserted(e, sorted[1..]));
      }
    }
  }

  lemma {:induction false} SortedIsSorted(edits: seq<Edit>)
    ensures Ascending(Sorted(edits)) && multiset(Sorted(edits)) == multiset(edits)
  {
    if edits != [] {
      SortedIsSorted(edits[1..]);
      InsertedPermutes(edits[0], Sorted(edits[1..]));
      InsertedAscends(edits[0], Sorted(edits[1..]), 0);
      HeadOut(edits);
    }
  }

  /** The left-to-right assembly: copy up to an edit, put its text, go on behind it. */
  function Assembly(source: Text, edits: seq<Edit>, from: nat): Text
    requires InOrder(source, edits, from)
    decreases |edits|
  {
    if edits == [] then source[from..]
    else source[from..edits[0].start] + edits[0].text + Assembly(source, edits[1..], edits[0].end)
  }

  /** The edits come one after the other, none before `from` and none past the end. */
  predicate InOrder(source: Text, edits: seq<Edit>, from: nat)
    decreases |edits|
  {
    if edits == [] then from <= |source|
    else from <= edits[0].start <= edits[0].end <= |source| && InOrder(source, edits[1..], edits[0].end)
  }

  /** Starting the assembly later leaves out just the copied text. */
  lemma AssemblySplits(source: Text, edits: seq<Edit>, from: nat, middle: nat)
    requires InOrder(source, edits, middle) && from <= middle
    ensures InOrder(source, edits, from) && middle <= |source|
    ensures Assembly(source, edits, from) == source[from..middle] + Assembly(source, edits, middle)
  {
    if edits == [] {
      assert source[from..] == source[from..middle] + source[middle..];
    } else {
      var e, rest := edits[0], Assembly(source, edits[1..], edits[0].end);
      assert source[from..e.start] == source[from..middle] + source[middle..e.start];
      Associative(source[from..middle], source[middle..e.start], e.text);
      Associative(source[from..middle], source[middle..e.start] + e.text, rest);
    }
  }

  lemma {:induction false} InOrderSuffix(source: Text, edits: seq<Edit>, from: nat, k: nat)
    requires InOrder(source, edits, from) && k <= |edits|
    ensures InOrder(source, edits[k..], if k == 0 then from else edits[k - 1].end)
    decreases k
  {
    if k == 0 {
      assert edits[0..] == edits;
    } else {
      InOrderSuffix(source, edits[1..], edits[0].end, k - 1);
      assert edits[1..][k - 1..] == edits[k..];
    }
  }

  lemma InOrderFromStart(source: Text, edits: seq<Edit>, k: nat)
    requires InOrder(source, edits, 0) && k <= |edits|
    ensures InOrder(source, edits[k..], 0)
    ensures k > 0 ==> edits[k - 1].start <= edits[k - 1].end && InOrder(source, edits[k..], edits[k - 1].end)
  {
    InOrderSuffix(source, edits, 0, k);
    if k > 0 {
      InOrderSuffix(source, edits, 0, k - 1);
      assert edits[k - 1..][0] == edits[k - 1];
      AssemblySplits(source, edits[k..], 0, edits[k - 1].end);
    }
  }

  /** One round of the loop, from the right: it turns the assembly of the later edits into that of one more. */
  lemma RoundAssembles(source: Text, edits: seq<Edit>, k: nat)
    requires InOrder(source, edits, 0) && 0 < k <= |edits|
    ensures InOrder(source, edits[k..], 0) && InOrder(source, edits[k - 1..], 0)
    ensures Replaced(Assembly(source, edits[k..], 0), edits[k - 1]) == Assembly(source, edits[k - 1..], 0)
  {
    InOrderFromStart(source, edits, k);
    InOrderFromStart(source, edits, k - 1);
    var e, later := edits[k - 1], edits[k..];
    assert edits[k - 1..][0] == e && edits[k - 1..][1..] == later;
    AssemblySplits(source, later, 0, e.end);
    var g := Assembly(source, later, 0);
    assert g[..e.start] == source[0..e.start] && g[e.end..] == Assembly(source, later, e.end);
  }

  /** The edits lie in the source, do not overlap, and start at different places. */
  predicate Disjoint(source: Text, edits: seq<Edit>) {
    && (forall i | 0 <= i < |edits| :: edits[i].start <= edits[i].end <= |source|)
    && (forall i, j | 0 <= i < |edits| && 0 <= j < |edits| && i != j ::
          edits[i].start != edits[j].start && (edits[i].end <= edits[j].start || edits[j].end <= edits[i].start))
  }

  lemma {:induction false} DisjointSortedInOrder(source: Text, sorted: seq<Edit>, from: nat)
    requires Disjoint(source, sorted) && Ascending(sorted) && from <= |source|
    requires sorted != [] ==> from <= sorted[0].start
    ensures InOrder(source, sorted, from)
    decreases |sorted|
  {
    if sorted != [] {
      var rest := sorted[1..];
      if rest != [] { assert rest[0] == sorted[1]; }
      DisjointSortedInOrder(source, rest, sorted[0].end);
    }
  }

  lemma {:induction false} DisjointPermutes(source: Text, a: seq<Edit>, b: seq<Edit>)
    requires Disjoint(source, a) && multiset(a) == multiset(b)
    ensures Disjoint(source, b)
  {
    forall i | 0 <= i < |b| ensures b[i].start <= b[i].end <= |source| {
      assert b[i] in multiset(a);
    }
    forall i, j | 0 <= i < |b| && 0 <= j < |b| && i != j
      ensures b[i].start != b[j].start && (b[i].end <= b[j].start || b[j].end <= b[i].start)
    {
      TwoPlaces(b, i, j);
      TwoOf(a, b[i], b[j]);
    }
  }

  lemma TakenOut(s: seq<Edit>, x: nat)
    requires x < |s|
    ensures multiset(s) == multiset(s[..x] + s[x + 1..]) + multiset{s[x]}
  {
    assert s == s[..x] + [s[x]] + s[x + 1..];
  }

  lemma TwoPlaces(s: seq<Edit>, i: nat, j: nat)
    requires i < |s| && j < |s| && i != j
    ensures multiset{s[i], s[j]} <= multiset(s)
  {
    var x, y := if i < j then i else j, if i < j then j else i;
    var rest := s[..x] + s[x + 1..];
    TakenOut(s, x);
    assert rest[y - 1] == s[y];
    assert s[y] in multiset(rest);
  }

  lemma TwoOf(a: seq<Edit>, x: Edit, y: Edit)
    requires multiset{x, y} <= multiset(a)
    ensures exists i, j :: 0 <= i < |a| && 0 <= j < |a| && i != j && a[i] == x && a[j] == y
  {
    assert x in multiset(a);
    var i :| 0 <= i < |a| && a[i] == x;
    var rest := a[..i] + a[i + 1..];
    assert a == a[..i] + [a[i]] + a[i + 1..];
    assert y in multiset(rest) by {
      assert multiset(a) == multiset(rest) + multiset{x};
      assert multiset(a)[y] >= multiset{x, y}[y];
    }
    var m :| 0 <= m < |rest| && rest[m] == y;
    var j := if m < i then m else m + 1;
    assert a[j] == y;
  }

  /**
   The replacement loop: from right to left over the sorted edits.  For disjoint
   edits the outcome is the left-to-right assembly.
   */
  method ApplyEdits(source: Text, edits: seq<Edit>) returns (generated: Text)
    ensures Disjoint(source, edits) ==> InOrder(source, Sorted(edits), 0) && generated == Assembly(source, Sorted(edits), 0)
  {
    var sorted := Sorted(edits);
    SortedIsSorted(edits);
    ghost var ok := Disjoint(source, edits);
    if ok {
      DisjointPermutes(source, edits, sorted);
      DisjointSortedInOrder(source, sorted, 0);
    }
    generated := source;
    assert sorted[|sorted|..] == [];
    for k := |sorted| downto 0
      invariant ok ==> InOrder(source, sorted, 0) && InOrder(source, sorted[k..], 0) && generated == Assembly(source, sorted[k..], 0)
    {
      if ok { RoundAssembles(source, sorted, k + 1); }
      generated := Replaced(generated, sorted[k]);
    }
    assert sorted[0..] == sorted;
  }

  // ------------------------------------------------ what the assembly keeps

  /** By how much the edits before position `p` move it. */
  function Moved(edits: seq<Edit>, p: nat): int {
    if edits == [] then 0 else (if edits[0].end <= p then edits[0].Growth() else 0) + Moved(edits[1..], p)
  }

  predicate Untouched(edits: seq<Edit>, p: nat) {
    forall i | 0 <= i < |edits| :: !edits[i].Touches(p)
  }

  lemma {:induction false} NothingMovesYet(source: Text, edits: seq<Edit>, from: nat, p: nat)
    requires InOrder(source, edits, from) && (edits != [] ==> p < edits[0].start)
    ensures Moved(edits, p) == 0
    decreases |edits|
  {
    if edits != [] {
      var rest := edits[1..];
      if rest != [] { assert edits[0].end <= rest[0].start; }
      NothingMovesYet(source, rest, edits[0].end, p);
    }
  }

  lemma Behind(head: Text, tail: Text, k: nat)
    requires k < |tail|
    ensures (head + tail)[|head| + k] == tail[k]
  {
  }

  lemma InFront(source: Text, from: nat, start: nat, text: Text, tail: Text, p: nat)
    requires from <= p < start <= |source|
    ensures (source[from..start] + text + tail)[p - from] == source[p]
  {
  }

  lemma UntouchedLater(edits: seq<Edit>, p: nat)
    requires edits != [] && Untouched(edits, p)
    ensures Untouched(edits[1..], p) && !edits[0].Touches(p)
  {
    var rest := edits[1..];
    assert forall i | 0 <= i < |rest| :: rest[i] == edits[i + 1];
  }

  predicate CharAt(text: Text, q: int, c: Scalar) { 0 <= q < |text| && text[q] == c }

  lemma KeptInFront(source: Text, edits: seq<Edit>, from: nat, p: nat)
    requires InOrder(source, edits, from) && edits != [] && from <= p < edits[0].start
    ensures CharAt(Assembly(source, edits, from), p - from, source[p])
  {
    InFront(source, from, edits[0].start, edits[0].text, Assembly(source, edits[1..], edits[0].end), p);
  }

  lemma KeptBehind(source: Text, edits: seq<Edit>, from: nat, k: int, c: Scalar)
    requires InOrder(source, edits, from) && edits != []
    requires CharAt(Assembly(source, edits[1..], edits[0].end), k, c)
    ensures CharAt(Assembly(source, edits, from), edits[0].start - from + |edits[0].text| + k, c)
  {
    Behind(source[from..edits[0].start] + edits[0].text, Assembly(source, edits[1..], edits[0].end), k);
  }

  /** Every untouched character is kept, at its old place plus what the edits before it grew. */
  lemma {:induction false} UntouchedKept(source: Text, edits: seq<Edit>, from: nat, p: nat)
    requires InOrder(source, edits, from) && from <= p < |source| && Untouched(edits, p)
    ensures CharAt(Assembly(source, edits, from), p - from + Moved(edits, p), source[p])
    decreases |edits|
  {
    if edits != [] {
      UntouchedLater(edits, p);
      if p < edits[0].start {
        NothingMovesYet(source, edits, from, p);
        KeptInFront(source, edits, from, p);
      } else {
        UntouchedKept(source, edits[1..], edits[0].end, p);
        KeptBehind(source, edits, from, p - edits[0].end + Moved(edits[1..], p), source[p]);
      }
    }
  }

  /** Two untouched characters keep their order. */
  lemma {:induction false} OrderKept(source: Text, edits: seq<Edit>, from: nat, p: nat, q: nat)
    requires InOrder(source, edits, from) && from <= p < q && Untouched(edits, p) && Untouched(edits, q)
    ensures p + Moved(edits, p) < q + Moved(edits, q)
    decreases |edits|
  {
    if edits != [] {
      var e, rest := edits[0], edits[1..];
      if e.end <= p {
        OrderKept(source, rest, e.end, p, q);
      } else if q < e.start {
        NothingMovesYet(source, edits, from, p);
        NothingMovesYet(source, edits, from, q);
      } else {
        assert p < e.start && e.end <= q;
        NothingMovesYet(source, edits, from, p);
        MovesNotBefore(source, rest, e.end, q);
      }
    }
  }

  lemma {:induction false} MovesNotBefore(source: Text, edits: seq<Edit>, from: nat, q: nat)
    requires InOrder(source, edits, from) && from <= q && Untouched(edits, q)
    ensures q - from + Moved(edits, q) >= 0
    decreases |edits|
  {
    if edits != [] {
      var e, rest := edits[0], edits[1..];
      if q < e.start {
        NothingMovesYet(source, edits, from, q);
      } else {
        assert !edits[0].Touches(q);
        MovesNotBefore(source, rest, e.end, q);
      }
    }
  }

  /** What the edits before the `k`-th one grew. */
  function GrownBefore(edits: seq<Edit>, k: nat): int
    requires k <= |edits|
  {
    if k == 0 then 0 else edits[0].Growth() + GrownBefore(edits[1..], k - 1)
  }

  lemma SliceBehind(head: Text, tail: Text, at: nat, text: Text)
    requires at + |text| <= |tail| && tail[at..at + |text|] == text
    ensures (head + tail)[|head| + at..|head| + at + |text|] == text
  {
    var s := (head + tail)[|head| + at..|head| + at + |text|];
    forall i | 0 <= i < |text| ensures s[i] == text[i] {
      assert s[i] == tail[at..at + |text|][i];
    }
  }

  lemma SliceInHead(before: Text, text: Text, tail: Text)
    ensures (before + text + tail)[|before|..|before| + |text|] == text
  {
  }

  /** Every replacement text is in the outcome, where its edit starts after what the edits before it grew. */
  lemma {:induction false} TextPlaced(source: Text, edits: seq<Edit>, from: nat, k: nat)
    requires InOrder(source, edits, from) && k < |edits|
    ensures var at := edits[k].start - from + GrownBefore(edits, k);
            0 <= at <= at + |edits[k].text| <= |Assembly(source, edits, from)|
            && Assembly(source, edits, from)[at..at + |edits[k].text|] == edits[k].text
    decreases |edits|
  {
    var e, rest := edits[0], edits[1..];
    var head, tail := source[from..e.start] + e.text, Assembly(source, rest, e.end);
    assert Assembly(source, edits, from) == head + tail;
    if k == 0 {
      SliceInHead(source[from..e.start], e.text, tail);
    } else {
      TextPlaced(source, rest, e.end, k - 1);
      SliceBehind(head, tail, rest[k - 1].start - e.end + GrownBefore(rest, k - 1), edits[k].text);
    }
  }

  /** Nothing else is in the outcome: its length is the source plus what all edits grew. */
  lemma {:induction false} AssemblyLength(source: Text, edits: seq<Edit>, from: nat)
    requires InOrder(source, edits, from)
    ensures |Assembly(source, edits, from)| == |source| - from + GrownBefore(edits, |edits|)
    decreases |edits|
  {
    if edits != [] { AssemblyLength(source, edits[1..], edits[0].end); }
  }

  // ------------------------------------------------ the order of the list does not matter

  lemma FirstIsSame(a: seq<Edit>, b: seq<Edit>)
    requires multiset(a) == multiset(b) && Ascending(a) && Ascending(b) && a != [] && b != []
    requires forall i | 0 < i < |a| :: a[0].start != a[i].start
    ensures a[0] == b[0]
  {
    assert a[0] in multiset(b) && b[0] in multiset(a);
    var i :| 0 <= i < |a| && a[i] == b[0];
    var j :| 0 <= j < |b| && b[j] == a[0];
    AscendingParts(a);
    AscendingParts(b);
    assert b[0].start <= b[j].start && a[0].start <= a[i].start;
  }

  lemma {:induction false} SameSet(a: seq<Edit>, b: seq<Edit>)
    requires multiset(a) == multiset(b) && Ascending(a) && Ascending(b)
    requires forall i, j | 0 <= i < j < |a| :: a[i].start != a[j].start
    ensures a == b
    decreases |a|
  {
    assert |a| == |multiset(a)| == |multiset(b)| == |b|;
    if a != [] {
      FirstIsSame(a, b);
      HeadOut(a);
      HeadOut(b);
      Cancels(multiset(a[1..]), multiset(b[1..]), a[0]);
      AscendingParts(a);
      AscendingParts(b);
      SameSet(a[1..], b[1..]);
    }
  }

  /** For disjoint edits only the set of edits matters: any list of them gives the same outcome. */
  lemma OrderDoesNotMatter(source: Text, a: seq<Edit>, b: seq<Edit>)
    requires Disjoint(source, a) && multiset(a) == multiset(b)
    ensures Sorted(a) == Sorted(b)
  {
    SortedIsSorted(a);
    SortedIsSorted(b);
    DisjointPermutes(source, a, Sorted(a));
    SameSet(Sorted(a), Sorted(b));
  }
}
