/** The balanced contiguous partition (src/tokenshare/experiments/factorization_exp1_analysis.py:294-314). */
module Partition {
  import opened Basics

  type Range = (int, int)

  function Width(r: Range): int { r.1 - r.0 + 1 }

  /** Adjacent, non-empty ranges from `start` to just before `next`. */
  ghost predicate Tiles(ranges: seq<Range>, start: int, next: int) {
    && (forall i :: 0 <= i < |ranges| ==> Width(ranges[i]) >= 1)
    && (forall i :: 0 <= i < |ranges| - 1 ==> ranges[i + 1].0 == ranges[i].1 + 1)
    && (if ranges == [] then next == start else ranges[0].0 == start && ranges[|ranges| - 1].1 + 1 == next)
  }

  /** Wider ranges come first and exceed the others by one. */
  ghost predicate Balanced(ranges: seq<Range>) {
    forall i, j :: 0 <= i <= j < |ranges| ==> Width(ranges[j]) <= Width(ranges[i]) <= Width(ranges[j]) + 1
  }

  function PythonDivMod(a: int, b: int): (r: (int, int))
    requires b > 0
    ensures a == b * r.0 + r.1 && 0 <= r.1 < b
  {
    (a / b, a % b)
  }

  method PartitionRanges(start: int, end: int, count: int) returns (r: Result<seq<Range>>)
    ensures r.Ok? <==> start <= end && 1 <= count <= end - start + 1
    ensures r.Ok? ==> |r.value| == count && Tiles(r.value, start, end + 1) && Balanced(r.value)
  {
    if start > end { return Err(EmptyInterval); }
    if count < 1 || count > end - start + 1 { return Err(CountDoesNotFit); }
    var (base, extra) := PythonDivMod(end - start + 1, count);
    BaseIsPositive(end - start + 1, count, base, extra);
    var ranges: seq<Range> := [];
    var next := start;
    for index := 0 to count
      invariant next == Edge(start, base, extra, index)
      invariant ranges == Split(start, base, extra, index)
    {
      var width := base + if index < extra then 1 else 0;
      SplitGrows(start, base, extra, index);
      ranges := ranges + [(next, next + width - 1)];
      next := next + width;
    }
    SplitTiles(start, base, extra, count);
    LastEdge(start, base, extra, count);
    r := Ok(ranges);
  }

  /** Where range `index` starts. */
  function Edge(start: int, base: int, extra: int, index: int): int {
    start + base * index + if index < extra then index else extra
  }

  lemma {:induction false} EdgeStep(start: int, base: int, extra: int, index: int)
    ensures Edge(start, base, extra, index + 1) == Edge(start, base, extra, index) + base + if index < extra then 1
      else 0
  {
    assert base * (index + 1) == base * index + base;
  }

  ghost function Split(start: int, base: int, extra: int, count: nat): seq<Range> {
    seq(count, i => (Edge(start, base, extra, i), Edge(start, base, extra, i + 1) - 1))
  }

  lemma {:induction false} SplitGrows(start: int, base: int, extra: int, index: nat)
    ensures var next, width := Edge(start, base, extra, index), base + if index < extra then 1 else 0;
      && Split(start, base, extra, index + 1) == Split(start, base, extra, index) + [(next, next + width - 1)]
      && Edge(start, base, extra, index + 1) == next + width
  {
    EdgeStep(start, base, extra, index);
  }

  lemma {:induction false} LastEdge(start: int, base: int, extra: int, count: int)
    requires extra < count
    ensures Edge(start, base, extra, count) == start + count * base + extra
  {
  }

  lemma {:induction false} SplitTiles(start: int, base: int, extra: int, count: nat)
    requires base >= 1 && 0 <= extra
    ensures Tiles(Split(start, base, extra, count), start, Edge(start, base, extra, count))
    ensures Balanced(Split(start, base, extra, count))
  {
    var ranges := Split(start, base, extra, count);
    forall i | 0 <= i < count ensures Width(ranges[i]) == base + if i < extra then 1 else 0 {
      EdgeStep(start, base, extra, i);
    }
  }

  lemma {:induction false} BaseIsPositive(size: int, count: int, base: int, extra: int)
    requires 1 <= count <= size && size == count * base + extra && 0 <= extra < count
    ensures base >= 1
  {
    assert base <= 0 ==> count * base <= 0;
  }

  ghost predicate InRange(x: int, r: Range) {
    r.0 <= x <= r.1
  }

  lemma {:induction false} FrontTiles(ranges: seq<Range>, start: int, next: int)
    requires ranges != [] && Tiles(ranges, start, next)
    ensures Tiles(ranges[..|ranges| - 1], start, ranges[|ranges| - 1].0)
  {
    var n := |ranges| - 1;
    var front := ranges[..n];
    if n > 0 {
      assert ranges[n - 1 + 1].0 == ranges[n - 1].1 + 1;
      assert front[n - 1] == ranges[n - 1];
    }
    forall i | 0 <= i < |front| - 1 ensures front[i + 1].0 == front[i].1 + 1 {
      assert ranges[i + 1].0 == ranges[i].1 + 1;
    }
  }

  /** Each integer of the interval lies in one range, and only in one; no other integer lies in any. */
  lemma {:induction false} CoveredOnce(ranges: seq<Range>, start: int, next: int, x: int)
    requires Tiles(ranges, start, next)
    ensures start <= next
    ensures (exists i :: 0 <= i < |ranges| && InRange(x, ranges[i])) <==> start <= x < next
    ensures forall i, j :: 0 <= i < |ranges| && 0 <= j < |ranges| && InRange(x, ranges[i]) && InRange(x, ranges[j]) ==>
      i == j
    decreases ranges
  {
    if ranges != [] {
      var n := |ranges| - 1;
      var front, middle := ranges[..n], ranges[n].0;
      FrontTiles(ranges, start, next);
      CoveredOnce(front, start, middle, x);
      assert Width(ranges[n]) >= 1;
      forall i | 0 <= i < n ensures InRange(x, ranges[i]) ==> start <= x < middle {
        assert front[i] == ranges[i];
      }
      if start <= x < middle {
        var i :| 0 <= i < |front| && InRange(x, front[i]);
        assert ranges[i] == front[i];
      } else if middle <= x < next {
        assert InRange(x, ranges[n]);
      }
      forall i, j | 0 <= i < |ranges| && 0 <= j < |ranges| && InRange(x, ranges[i]) && InRange(x, ranges[j])
        ensures i == j {
        if i < n && j < n { assert front[i] == ranges[i] && front[j] == ranges[j]; }
      }
    }
  }
}
