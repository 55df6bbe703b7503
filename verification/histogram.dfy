/** The sliding histogram and its reader (jamodio-audio-core/src/perfstats.rs): a ring written in
    real time, swapped against an empty spare to be read, against a plain list of observations. */
module Perfstats {

  datatype Snapshot = Snapshot(count: nat, p50: real, p99: real, max: real, mean: real)

  const NO_SNAPSHOT := Snapshot(0, 0.0, 0.0, 0.0, 0.0)

  // ------------------------------------------------------------------ sorting

  ghost predicate Ordered(s: seq<real>) {
    forall i, j :: 0 <= i < j < |s| ==> s[i] <= s[j]
  }

  function Insert(x: real, s: seq<real>): (r: seq<real>)
    requires Ordered(s)
    ensures Ordered(r) && multiset(r) == multiset(s) + multiset{x} && |r| == |s| + 1
  {
    if s == [] then [x]
    else if x <= s[0] then
      [x] + s
    else
      assert s == [s[0]] + s[1..];
      var rest := Insert(x, s[1..]);
      FirstBelow(x, s, rest);
      [s[0]] + rest
  }

  lemma {:induction false} FirstBelow(x: real, s: seq<real>, rest: seq<real>)
    requires s != [] && Ordered(s) && s[0] <= x
    requires multiset(rest) == multiset(s[1..]) + multiset{x}
    ensures forall i :: 0 <= i < |rest| ==> s[0] <= rest[i]
  {
    forall i | 0 <= i < |rest|
      ensures s[0] <= rest[i]
    {
      assert rest[i] in multiset(rest);
      if rest[i] != x {
        assert rest[i] in multiset(s[1..]);
        var j :| 0 <= j < |s[1..]| && s[1..][j] == rest[i];
      }
    }
  }

  function Sort(s: seq<real>): (r: seq<real>)
    ensures Ordered(r) && multiset(r) == multiset(s) && |r| == |s|
  {
    if s == [] then [] else
    assert s == s[..|s| - 1] + [s[|s| - 1]];
    Insert(s[|s| - 1], Sort(s[..|s| - 1]))
  }

  lemma {:induction false} FirstIsLeast(a: seq<real>, b: seq<real>)
    requires a != [] && b != [] && Ordered(a) && multiset(a) == multiset(b)
    ensures a[0] <= b[0]
  {
    assert b[0] in multiset(b);
    assert b[0] in multiset(a);
    var j :| 0 <= j < |a| && a[j] == b[0];
  }

  /** The order of the observations does not show in the sorted copy. */
  lemma {:induction false} OrderedIsUnique(a: seq<real>, b: seq<real>)
    requires Ordered(a) && Ordered(b) && multiset(a) == multiset(b)
    ensures a == b
    decreases |a|
  {
    assert |multiset(a)| == |a| && |multiset(b)| == |b|;
    if a != [] {
      FirstIsLeast(a, b);
      FirstIsLeast(b, a);
      assert a == [a[0]] + a[1..] && b == [b[0]] + b[1..];
      assert multiset(a[1..]) == multiset(a) - multiset{a[0]};
      assert multiset(b[1..]) == multiset(b) - multiset{b[0]};
      OrderedIsUnique(a[1..], b[1..]);
    }
  }

  // ------------------------------------------------------------------ the specification

  function Sum(s: seq<real>): real {
    if s == [] then 0.0 else Sum(s[..|s| - 1]) + s[|s| - 1]
  }

  function P99Index(n: nat): nat
    requires n > 0
  {
    var i := n * 99 / 100;
    if i < n - 1 then i else n - 1
  }

  function SnapshotOfSorted(s: seq<real>): Snapshot
    requires s != []
  {
    Snapshot(|s|, s[|s| / 2], s[P99Index(|s|)], s[|s| - 1], Sum(s) / |s| as real)
  }

  /** What a reading of these observations gives. */
  function SnapshotOf(observations: seq<real>): Snapshot {
    if observations == [] then NO_SNAPSHOT else SnapshotOfSorted(Sort(observations))
  }

  /** The observations a histogram of this capacity keeps. */
  function Kept(capacity: nat, window: seq<real>): seq<real> {
    if |window| <= capacity then window else window[|window| - capacity..]
  }

  lemma {:induction false} SumBounds(s: seq<real>, lo: real, hi: real)
    requires forall i :: 0 <= i < |s| ==> lo <= s[i] <= hi
    ensures |s| as real * lo <= Sum(s) <= |s| as real * hi
  {
    if s != [] {
      var n := |s| - 1;
      SumBounds(s[..n], lo, hi);
      assert |s| as real * lo == n as real * lo + lo;
      assert |s| as real * hi == n as real * hi + hi;
    }
  }

  lemma {:induction false} SortKeepsValues(observations: seq<real>)
    ensures forall x :: x in Sort(observations) <==> x in observations
  {
    var s := Sort(observations);
    forall x
      ensures x in s <==> x in observations
    {
      assert x in s <==> x in multiset(s);
      assert x in observations <==> x in multiset(observations);
    }
  }

  lemma {:induction false} SortedFigures(s: seq<real>)
    requires s != [] && Ordered(s)
    ensures
      var r := SnapshotOfSorted(s);
      && s[0] <= r.p50 <= r.p99 <= r.max == s[|s| - 1]
      && r.p50 in s && r.p99 in s && r.max in s
      && (forall x :: x in s ==> s[0] <= x <= r.max)
      && s[0] <= r.mean <= r.max
  {
    var n := |s|;
    assert n / 2 <= P99Index(n) <= n - 1;
    SumBounds(s, s[0], s[n - 1]);
    MeanBounds(Sum(s), n, s[0], s[n - 1]);
  }

  /** The published figures are ordered, and the extremes are those of the observations. */
  lemma {:induction false} SnapshotOrdered(observations: seq<real>)
    requires observations != []
    ensures
      var r := SnapshotOf(observations);
      && r.count == |observations|
      && r.p50 <= r.p99 <= r.max
      && r.p50 in observations && r.p99 in observations && r.max in observations
      && (exists lo :: lo in observations && (forall x :: x in observations ==> lo <= x <= r.max) && lo <= r.mean <= r.max)
  {
    hide SnapshotOfSorted;
    var s := Sort(observations);
    SortedFigures(s);
    SortKeepsValues(observations);
    SnapshotCount(s);
    assert s[0] in observations;
  }

  lemma {:induction false} SumFromFront(x: real, s: seq<real>)
    ensures Sum([x] + s) == x + Sum(s)
  {
    var all := [x] + s;
    if s == [] {
      assert all[..0] == [];
    } else {
      assert all[..|s|] == [x] + s[..|s| - 1];
      SumFromFront(x, s[..|s| - 1]);
    }
  }

  lemma {:induction false} SumOfInsert(x: real, s: seq<real>)
    requires Ordered(s)
    ensures Sum(Insert(x, s)) == x + Sum(s)
  {
    SumFromFront(x, s);
    if s != [] && x > s[0] {
      SumOfInsert(x, s[1..]);
      SumFromFront(s[0], Insert(x, s[1..]));
      SumFromFront(s[0], s[1..]);
      assert s == [s[0]] + s[1..];
    } else if s == [] {
      assert [x] + [] == [x];
    }
  }

  lemma {:induction false} SumOfSorted(s: seq<real>)
    ensures Sum(Sort(s)) == Sum(s)
  {
    if s != [] {
      SumOfSorted(s[..|s| - 1]);
      SumOfInsert(s[|s| - 1], Sort(s[..|s| - 1]));
    }
  }

  /** In the observations put in order, whatever the way, p50 is the one of rank n / 2, p99 that of rank
      99 n / 100 and the maximum the last; the mean is their sum over their number. No observation, no
      figure. */
  lemma {:induction false} SnapshotRanks(observations: seq<real>, ordered: seq<real>)
    requires Ordered(ordered) && multiset(ordered) == multiset(observations)
    ensures
      var n := |observations|;
      var r := SnapshotOf(observations);
      && |ordered| == n && r.count == n
      && (n == 0 ==> r == Snapshot(0, 0.0, 0.0, 0.0, 0.0))
      && (n > 0 ==> r.p50 == ordered[n / 2] && r.p99 == ordered[99 * n / 100] && r.max == ordered[n - 1]
                    && r.mean * n as real == Sum(observations))
  {
    hide Sum, Sort, SnapshotOfSorted;
    var n := |observations|;
    assert |multiset(ordered)| == |ordered| && |multiset(observations)| == n;
    OrderedIsUnique(ordered, Sort(observations));
    if n > 0 {
      SortedRanks(ordered);
      SumOfSorted(observations);
    }
  }

  lemma {:induction false} SortedRanks(s: seq<real>)
    requires s != []
    ensures
      var r := SnapshotOfSorted(s);
      && r.count == |s| && r.p50 == s[|s| / 2] && r.p99 == s[99 * |s| / 100] && r.max == s[|s| - 1]
      && r.mean * |s| as real == Sum(s)
  {
    hide Sum;
    Quotient(Sum(s), |s| as real);
  }

  lemma {:induction false} Quotient(x: real, d: real)
    requires d != 0.0
    ensures x / d * d == x
  {
  }

  lemma {:induction false} SnapshotCount(s: seq<real>)
    requires s != []
    ensures SnapshotOfSorted(s).count == |s|
  {
  }

  lemma {:induction false} MeanBounds(sum: real, n: nat, lo: real, hi: real)
    requires n > 0 && n as real * lo <= sum <= n as real * hi
    ensures lo <= sum / n as real <= hi
  {
    var d := n as real;
    DivideBack(d, lo);
    DivideBack(d, hi);
    DivideBoth(d * lo, sum, d);
    DivideBoth(sum, d * hi, d);
  }

  lemma {:induction false} DivideBack(d: real, x: real)
    requires d > 0.0
    ensures (d * x) / d == x
  {
    var q := (d * x) / d;
    assert q * d == d * x;
    assert (q - x) * d == 0.0;
  }

  lemma {:induction false} DivideBoth(x: real, y: real, d: real)
    requires x <= y && d > 0.0
    ensures x / d <= y / d
  {
  }

  // ------------------------------------------------------------------ the ring

  /** The ring holds the last observations of the window, the newest just before `w`. */
  ghost predicate RingOf(ring: seq<real>, window: seq<real>, w: nat) {
    var n := |window|;
    && w < |ring| && w <= n
    && (n < |ring| ==> w == n)
    && ring[..w] == window[n - w..]
    && (n >= |ring| ==> ring[w..] == window[n - |ring|..n - w])
  }

  lemma {:induction false} RingIndex(ring: seq<real>, window: seq<real>, w: nat)
    requires RingOf(ring, window, w)
    ensures w < |ring|
  {
  }

  lemma {:induction false} RingTurns(ring: seq<real>, window: seq<real>, w: nat, value: real)
    requires RingOf(ring, window, w)
    ensures RingOf(ring[w := value], window + [value], if w + 1 == |ring| then 0 else w + 1)
  {
    var turned, longer := ring[w := value], window + [value];
    var n := |longer|;
    assert turned[..w + 1] == ring[..w] + [value] == longer[n - (w + 1)..];
    if n > |ring| {
      assert turned[w + 1..] == ring[w..][1..] == longer[n - |ring|..n - (w + 1)];
    }
    if w + 1 == |ring| {
      assert turned[0..] == turned[..w + 1];
    }
  }

  lemma {:induction false} RingKeeps(ring: seq<real>, window: seq<real>, w: nat)
    requires RingOf(ring, window, w)
    ensures
      var count := if |window| < |ring| then |window| else |ring|;
      multiset(ring[..count]) == multiset(Kept(|ring|, window))
  {
    if |window| >= |ring| {
      assert ring[..|ring|] == ring[..w] + ring[w..];
      KeptInTwo(window, |ring|, w);
    } else {
      assert ring[..w] == window;
    }
  }

  class Histogram {
    const buf: array<real>
    var writeIdx: nat
    var count: nat
    /** All the observations since the last reset. */
    ghost var window: seq<real>

    ghost predicate Valid()
      reads this, buf
    {
      && RingOf(buf[..], window, writeIdx)
      && count == (if |window| < buf.Length then |window| else buf.Length)
    }

    constructor (capacity: nat)
      requires capacity > 0
      ensures Valid() && fresh(buf) && buf.Length == capacity && window == []
    {
      buf := new real[capacity](_ => 0.0);
      writeIdx, count, window := 0, 0, [];
    }

    method Observe(value: real)
      requires Valid()
      modifies this, buf
      ensures Valid() && window == old(window) + [value]
    {
      hide RingOf;
      assert writeIdx < buf.Length by {
        RingIndex(buf[..], window, writeIdx);
      }
      RingTurns(buf[..], window, writeIdx, value);
      Successor(writeIdx, buf.Length);
      ghost var before := buf[..];
      buf[writeIdx] := value;
      assert buf[..] == before[writeIdx := value];
      writeIdx := (writeIdx + 1) % buf.Length;
      if count < buf.Length {
        count := count + 1;
      }
      window := window + [value];
    }

    method Reset()
      requires Valid()
      modifies this
      ensures Valid() && window == []
    {
      count, writeIdx, window := 0, 0, [];
    }

    /** The valid part of the ring holds, in some order, the kept observations; until the ring is
        full the write index is the count. */
    lemma {:induction false} RingHoldsKept()
      requires Valid()
      ensures count <= buf.Length && multiset(buf[..count]) == multiset(Kept(buf.Length, window))
      ensures count < buf.Length ==> writeIdx == count
    {
      RingKeeps(buf[..], window, writeIdx);
      assert buf[..count] == buf[..][..count];
    }

    method TakeSnapshot() returns (snap: Snapshot)
      requires Valid()
      ensures snap == SnapshotOf(Kept(buf.Length, window))
    {
      RingHoldsKept();
      if count == 0 {
        return NO_SNAPSHOT;
      }
      var scratch := Sort(buf[..count]);
      OrderedIsUnique(scratch, Sort(Kept(buf.Length, window)));
      snap := SnapshotOfSorted(scratch);
    }
  }

  lemma {:induction false} KeptInTwo(window: seq<real>, cap: nat, w: nat)
    requires w < cap <= |window|
    ensures Kept(cap, window) == window[|window| - cap..|window| - w] + window[|window| - w..]
  {
  }

  lemma {:induction false} Successor(i: nat, cap: nat)
    requires i < cap
    ensures (i + 1) % cap == if i + 1 == cap then 0 else i + 1
  {
    if i + 1 < cap {
      SmallMod(i + 1, cap);
    }
  }

  lemma {:induction false} SmallMod(a: nat, b: nat)
    requires a < b
    ensures a % b == a
  {
  }

  // ------------------------------------------------------------------ the reader

  /** The shared cell: the histogram the writer sees. */
  class Live {
    var h: Histogram

    constructor (h: Histogram)
      ensures this.h == h
    {
      this.h := h;
    }
  }

  class HistogramReader {
    var spare: Histogram

    /** The spare is empty and is another ring of the same capacity. */
    ghost predicate Ready(live: Live)
      reads this, live, live.h, live.h.buf, spare, spare.buf
    {
      && live.h.Valid() && spare.Valid()
      && spare != live.h && spare.buf != live.h.buf
      && spare.buf.Length == live.h.buf.Length
      && spare.window == []
    }

    constructor (live: Live)
      requires live.h.Valid()
      ensures Ready(live) && fresh(spare) && fresh(spare.buf)
    {
      spare := new Histogram(live.h.buf.Length);
    }

    /** Gives the window of `live` and empties it: an O(1) exchange, then the sort on the side. */
    method Read(live: Live) returns (snap: Snapshot)
      requires Ready(live)
      modifies this, live, live.h
      ensures Ready(live)
      ensures live.h == old(spare) && spare == old(live.h)
      ensures live.h.window == [] && live.h.buf.Length == old(live.h.buf.Length)
      ensures snap == SnapshotOf(Kept(old(live.h.buf.Length), old(live.h.window)))
    {
      hide Histogram.Valid;
      live.h, spare := spare, live.h;
      snap := spare.TakeSnapshot();
      spare.Reset();
    }
  }

  // ------------------------------------------------------------------ whole runs

  datatype Op = Observe(value: real) | Reset | Read

  /** The observations since the last reading or reset. */
  function WindowAfter(ops: seq<Op>): seq<real> {
    if ops == [] then [] else
    match ops[|ops| - 1]
    case Observe(value) => WindowAfter(ops[..|ops| - 1]) + [value]
    case _ => []
  }

  /** What the readings give, from the list of operations alone. */
  function Readings(capacity: nat, ops: seq<Op>): seq<Snapshot> {
    if ops == [] then [] else
    var before := Readings(capacity, ops[..|ops| - 1]);
    if ops[|ops| - 1].Read? then before + [SnapshotOf(Kept(capacity, WindowAfter(ops[..|ops| - 1])))] else before
  }

  /** The two alternating rings, over any run, read like the plain list: nothing of an earlier
      window ever leaks. */
  method Drive(capacity: nat, ops: seq<Op>) returns (readings: seq<Snapshot>)
    requires capacity > 0
    ensures readings == Readings(capacity, ops)
  {
    hide Histogram.Valid;
    var first := new Histogram(capacity);
    var live := new Live(first);
    var reader := new HistogramReader(live);
    readings := [];
    for k := 0 to |ops|
      invariant fresh(live) && fresh(reader)
      invariant fresh(live.h) && fresh(live.h.buf) && fresh(reader.spare) && fresh(reader.spare.buf)
      invariant reader.Ready(live) && live.h.buf.Length == capacity
      invariant live.h.window == WindowAfter(ops[..k])
      invariant readings == Readings(capacity, ops[..k])
    {
      assert ops[..k + 1][..k] == ops[..k];
      match ops[k] {
        case Observe(value) => live.h.Observe(value);
        case Reset => live.h.Reset();
        case Read =>
          var snap := reader.Read(live);
          readings := readings + [snap];
      }
    }
    assert ops[..|ops|] == ops;
  }
}
