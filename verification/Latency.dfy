/** The rolling latency window and its percentiles (src/common/middleware/requestLogger.ts:32-62). */
module Latency {

  const WINDOW_SIZE := 500

  // ----- The window -----

  /** The last `n` values of a sequence, or all of them. */
  function LastN(xs: seq<int>, n: nat): seq<int> {
    if |xs| <= n then xs else xs[|xs| - n..]
  }

  /** The buffer's values from oldest to newest, given the next write position. */
  function InOrder(buffer: seq<int>, head: nat): seq<int> {
    if |buffer| < WINDOW_SIZE then buffer else buffer[head % WINDOW_SIZE..] + buffer[..head % WINDOW_SIZE]
  }

  class DurationWindow {
    var buffer: seq<int>
    var head: nat

    ghost predicate Valid()
      reads this
    {
      |buffer| <= WINDOW_SIZE && (|buffer| < WINDOW_SIZE ==> head == 0)
    }

    ghost function Window(): seq<int>
      reads this
      requires Valid()
    {
      InOrder(buffer, head)
    }

    constructor ()
      ensures Valid() && Window() == []
    {
      buffer, head := [], 0;
    }

    /** `recordDuration`: fill up, then overwrite the oldest. */
    method Record(ms: int)
      requires Valid()
      modifies this
      ensures Valid() && Window() == LastN(old(Window()) + [ms], WINDOW_SIZE)
    {
      if |buffer| < WINDOW_SIZE {
        buffer := buffer + [ms];
      } else {
        OneMoreRecorded(buffer, head, ms);
        buffer := buffer[head % WINDOW_SIZE := ms];
        head := head + 1;
      }
    }

    /** Records a whole series. */
    method RecordAll(xs: seq<int>)
      requires Valid()
      modifies this
      ensures Valid() && Window() == LastN(old(Window()) + xs, WINDOW_SIZE)
      ensures var all := old(Window()) + xs; Window() == all[if |all| <= 500 then 0 else |all| - 500..]
      ensures multiset(buffer) == multiset(LastN(old(Window()) + xs, WINDOW_SIZE))
    {
      var i := 0;
      ghost var before := Window();
      assert before + xs[..0] == before && LastN(before, WINDOW_SIZE) == before;
      while i < |xs|
        invariant 0 <= i <= |xs| && Valid() && Window() == LastN(before + xs[..i], WINDOW_SIZE)
      {
        Record(xs[i]);
        LastNOneMore(before + xs[..i], xs[i], WINDOW_SIZE);
        assert before + xs[..i + 1] == (before + xs[..i]) + [xs[i]];
        i := i + 1;
      }
      assert xs[..i] == xs;
      SameValues(buffer, head);
    }

    /** `percentile`. */
    method Percentile(p: int) returns (r: int)
      requires Valid() && p <= 100
      ensures r == NearestRank(buffer, p)
      ensures 0 < p && buffer != [] ==>
                && r in buffer
                && 100 * CountAtMost(buffer, r) >= p * |buffer|
                && 100 * CountBelow(buffer, r) < p * |buffer|
      ensures buffer == [] ==> r == 0
    {
      if |buffer| == 0 {
        return 0;
      }
      var sorted := Sort(buffer);
      SortIsSorted(buffer);
      RankInRange(p, |sorted|);
      var index := Ceiling(p * |sorted|, 100) - 1;
      if index < 0 {
        index := 0;
      }
      r := sorted[index];
      if 0 < p {
        PercentileIsNearestRank(buffer, p);
      }
    }
  }

  /** Overwriting the slot at the head drops the oldest value and adds the newest. */
  lemma {:induction false} OneMoreRecorded(buffer: seq<int>, head: nat, ms: int)
    requires |buffer| == WINDOW_SIZE
    ensures InOrder(buffer[head % WINDOW_SIZE := ms], head + 1) == InOrder(buffer, head)[1..] + [ms]
  {
    var at := head % WINDOW_SIZE;
    var next := buffer[at := ms];
    assert InOrder(buffer, head)[1..] == buffer[at + 1..] + buffer[..at];
    NextPosition(head);
    if at + 1 == WINDOW_SIZE {
      assert next == buffer[..at] + [ms];
    } else {
      assert next[at + 1..] == buffer[at + 1..] && next[..at + 1] == buffer[..at] + [ms];
    }
  }

  lemma NextPosition(head: nat)
    ensures (head + 1) % WINDOW_SIZE == if head % WINDOW_SIZE + 1 == WINDOW_SIZE then 0 else head % WINDOW_SIZE + 1
  {
  }

  lemma {:induction false} LastNOneMore(xs: seq<int>, x: int, n: nat)
    requires n > 0
    ensures LastN(LastN(xs, n) + [x], n) == LastN(xs + [x], n)
  {
  }

  lemma {:induction false} SameValues(buffer: seq<int>, head: nat)
    requires |buffer| <= WINDOW_SIZE
    ensures multiset(InOrder(buffer, head)) == multiset(buffer)
  {
    if |buffer| == WINDOW_SIZE {
      var at := head % WINDOW_SIZE;
      assert buffer == buffer[..at] + buffer[at..];
    }
  }

  // ----- Percentiles -----

  predicate Sorted(xs: seq<int>) {
    forall i, j | 0 <= i < j < |xs| :: xs[i] <= xs[j]
  }

  function Insert(x: int, xs: seq<int>): seq<int> {
    if xs == [] || x <= xs[0] then [x] + xs else [xs[0]] + Insert(x, xs[1..])
  }

  /** The numeric sort of the runtime. */
  function Sort(xs: seq<int>): seq<int> {
    if xs == [] then [] else Insert(xs[0], Sort(xs[1..]))
  }

  lemma {:induction false} InsertKeepsValues(x: int, xs: seq<int>)
    ensures multiset(Insert(x, xs)) == multiset(xs) + multiset{x} && |Insert(x, xs)| == |xs| + 1
  {
    if xs != [] && x > xs[0] {
      InsertKeepsValues(x, xs[1..]);
      assert xs == [xs[0]] + xs[1..];
    }
  }

  lemma {:induction false} InsertAbove(low: int, x: int, xs: seq<int>)
    requires low <= x && forall i | 0 <= i < |xs| :: low <= xs[i]
    ensures forall i | 0 <= i < |Insert(x, xs)| :: low <= Insert(x, xs)[i]
  {
    if xs != [] && x > xs[0] {
      InsertAbove(low, x, xs[1..]);
    }
  }

  lemma {:induction false} InsertIsSorted(x: int, xs: seq<int>)
    requires Sorted(xs)
    ensures Sorted(Insert(x, xs))
  {
    if xs != [] && x > xs[0] {
      InsertIsSorted(x, xs[1..]);
      InsertAbove(xs[0], x, xs[1..]);
    }
  }

  lemma {:induction false} SortIsSorted(xs: seq<int>)
    ensures Sorted(Sort(xs)) && multiset(Sort(xs)) == multiset(xs) && |Sort(xs)| == |xs|
  {
    if xs != [] {
      SortIsSorted(xs[1..]);
      InsertIsSorted(xs[0], Sort(xs[1..]));
      InsertKeepsValues(xs[0], Sort(xs[1..]));
      assert xs == [xs[0]] + xs[1..];
    }
  }

  /** `Math.ceil(a / b)`, exactly. */
  function Ceiling(a: int, b: int): int
    requires b > 0
  {
    -((-a) / b)
  }

  /** The 1-based rank the percentile stands at: ceil(p / 100 * n), and at least 1. */
  function Rank(p: int, n: nat): int {
    var r := Ceiling(p * n, 100);
    if r < 1 then 1 else r
  }

  lemma RankInRange(p: int, n: nat)
    requires p <= 100 && n > 0
    ensures 1 <= Rank(p, n) <= n
    ensures p > 0 ==> 100 * (Rank(p, n) - 1) < p * n <= 100 * Rank(p, n)
  {
    var a := p * n;
    assert a <= 100 * n by {
      assert (100 - p) * n >= 0;
    }
    assert p > 0 ==> a > 0;
    var q := (-a) / 100;
    assert -a == 100 * q + (-a) % 100;
  }

  function NearestRank(buffer: seq<int>, p: int): int
    requires p <= 100
  {
    if buffer == [] then 0
    else
      RankInRange(p, |buffer|);
      SortIsSorted(buffer);
      Sort(buffer)[Rank(p, |buffer|) - 1]
  }

  function CountAtMost(xs: seq<int>, v: int): nat {
    if xs == [] then 0 else (if xs[0] <= v then 1 else 0) + CountAtMost(xs[1..], v)
  }

  function CountBelow(xs: seq<int>, v: int): nat {
    if xs == [] then 0 else (if xs[0] < v then 1 else 0) + CountBelow(xs[1..], v)
  }

  lemma {:induction false} InsertCounts(x: int, xs: seq<int>, v: int)
    ensures CountAtMost(Insert(x, xs), v) == CountAtMost([x] + xs, v)
    ensures CountBelow(Insert(x, xs), v) == CountBelow([x] + xs, v)
  {
    assert ([x] + xs)[1..] == xs;
    if xs != [] && x > xs[0] {
      InsertCounts(x, xs[1..], v);
      assert ([x] + xs[1..])[1..] == xs[1..];
      assert ([xs[0]] + Insert(x, xs[1..]))[1..] == Insert(x, xs[1..]);
    }
  }

  lemma {:induction false} SortCounts(xs: seq<int>, v: int)
    ensures CountAtMost(Sort(xs), v) == CountAtMost(xs, v) && CountBelow(Sort(xs), v) == CountBelow(xs, v)
  {
    if xs != [] {
      SortCounts(xs[1..], v);
      InsertCounts(xs[0], Sort(xs[1..]), v);
      assert ([xs[0]] + Sort(xs[1..]))[1..] == Sort(xs[1..]);
    }
  }

  /** In a sorted sequence at least the first i + 1 values are at most the i-th, and no later one is below it. */
  lemma {:induction false} SortedCounts(xs: seq<int>, i: nat)
    requires Sorted(xs) && i < |xs|
    ensures CountAtMost(xs, xs[i]) >= i + 1 && CountBelow(xs, xs[i]) <= i
    decreases |xs|
  {
    if i == 0 {
      NoneBelow(xs, xs[0]);
    } else {
      SortedCounts(xs[1..], i - 1);
    }
  }

  lemma {:induction false} NoneBelow(xs: seq<int>, v: int)
    requires forall j | 0 <= j < |xs| :: v <= xs[j]
    ensures CountBelow(xs, v) == 0
  {
    if xs != [] {
      NoneBelow(xs[1..], v);
    }
  }

  /**
   The percentile is the nearest rank: at least p percent of the window is at most the value, less than p percent
   is strictly below it, and the value occurs in the window.
   */
  lemma {:induction false} PercentileIsNearestRank(buffer: seq<int>, p: int)
    requires 0 < p <= 100 && buffer != []
    ensures var v := NearestRank(buffer, p);
            && v in buffer
            && 100 * CountAtMost(buffer, v) >= p * |buffer|
            && 100 * CountBelow(buffer, v) < p * |buffer|
  {
    var i := Rank(p, |buffer|) - 1;
    RankInRange(p, |buffer|);
    SortIsSorted(buffer);
    var v := Sort(buffer)[i];
    SortedCounts(Sort(buffer), i);
    SortCounts(buffer, v);
    assert v in multiset(Sort(buffer));
  }

  /** A higher percentile is never a smaller value. */
  lemma {:induction false} PercentileIsMonotone(buffer: seq<int>, p: int, q: int)
    requires p <= q <= 100
    ensures NearestRank(buffer, p) <= NearestRank(buffer, q)
  {
    if buffer != [] {
      RankIsMonotone(p, q, |buffer|);
      RankInRange(p, |buffer|);
      RankInRange(q, |buffer|);
      SortIsSorted(buffer);
    }
  }

  lemma RankIsMonotone(p: int, q: int, n: nat)
    requires p <= q
    ensures Rank(p, n) <= Rank(q, n)
  {
    assert p * n <= q * n by {
      assert (q - p) * n >= 0;
    }
    CeilingMonotone(p * n, q * n);
  }

  lemma CeilingMonotone(a: int, b: int)
    requires a <= b
    ensures Ceiling(a, 100) <= Ceiling(b, 100)
  {
  }
}
