/** The time covered by a set of transfer samples (`_merged_duration_ns` in py_kvcache/transfer.py). */
module MergedDuration {

  /** A sample's start and duration; its other fields play no part here. */
  datatype Sample = Sample(start: int, duration: int)

  datatype Interval = Interval(lo: int, hi: int)

  // ---------- Specification ----------

  function Range(lo: int, hi: int): (r: set<int>)
    ensures forall t :: t in r <==> lo <= t < hi
    ensures |r| == if lo < hi then hi - lo else 0
    decreases hi - lo
  {
    if hi <= lo then {} else Range(lo, hi - 1) + {hi - 1}
  }

  /** The instants that lie within some sample. */
  ghost function Covered(samples: seq<Sample>): set<int> {
    if samples == [] then {}
    else Covered(samples[1..]) + Range(samples[0].start, samples[0].start + samples[0].duration)
  }

  /** An instant is covered exactly when some sample contains it. */
  lemma {:induction false} CoveredIff(samples: seq<Sample>, t: int)
    ensures t in Covered(samples) <==>
      exists i :: 0 <= i < |samples| && samples[i].start <= t < samples[i].start + samples[i].duration
  {
    if samples != [] {
      CoveredIff(samples[1..], t);
      assert forall i :: 1 <= i < |samples| ==> samples[i] == samples[1..][i - 1];
      if t in Covered(samples[1..]) {
        var i :| 0 <= i < |samples[1..]| && samples[1..][i].start <= t < samples[1..][i].start + samples[1..][i].duration;
        assert samples[i + 1] == samples[1..][i];
      }
    }
  }

  ghost function Union(intervals: seq<Interval>): set<int> {
    if intervals == [] then {}
    else Union(intervals[..|intervals| - 1]) + Range(intervals[|intervals| - 1].lo, intervals[|intervals| - 1].hi)
  }

  // ---------- Sorting ----------

  predicate Before(a: Interval, b: Interval) {
    a.lo < b.lo || (a.lo == b.lo && a.hi <= b.hi)
  }

  ghost predicate Sorted(s: seq<Interval>) {
    forall i, j :: 0 <= i < j < |s| ==> Before(s[i], s[j])
  }

  function Insert(s: seq<Interval>, x: Interval): seq<Interval> {
    if s == [] then [x]
    else if Before(s[|s| - 1], x) then s + [x]
    else Insert(s[..|s| - 1], x) + [s[|s| - 1]]
  }

  /** The nonempty sample intervals in order (the library's `sorted`). */
  function SortedIntervals(samples: seq<Sample>): seq<Interval> {
    if samples == [] then []
    else
      var rest, s := SortedIntervals(samples[1..]), samples[0];
      if s.duration > 0 then Insert(rest, Interval(s.start, s.start + s.duration)) else rest
  }

  lemma {:induction false} InsertSorted(s: seq<Interval>, x: Interval)
    requires Sorted(s)
    ensures Sorted(Insert(s, x))
    ensures forall y :: y in Insert(s, x) <==> y in s || y == x
    ensures Union(Insert(s, x)) == Union(s) + Range(x.lo, x.hi)
  {
    if s != [] {
      var last, front := s[|s| - 1], s[..|s| - 1];
      assert s == front + [last];
      if Before(last, x) {
        assert (s + [x])[..|s|] == s;
        assert forall y :: y in s ==> Before(y, x);
      } else {
        InsertSorted(front, x);
        var r := Insert(front, x);
        assert (r + [last])[..|r|] == r;
        assert forall i :: 0 <= i < |r| ==> r[i] in r;
        assert forall y :: y in r ==> Before(y, last);
      }
    } else {
      assert [x][..0] == [];
    }
  }

  lemma {:induction false} SortedIntervalsCover(samples: seq<Sample>)
    ensures Sorted(SortedIntervals(samples)) && Union(SortedIntervals(samples)) == Covered(samples)
    ensures forall y :: y in SortedIntervals(samples) ==> y.lo < y.hi
  {
    hide Range, Union, Sorted, Insert;
    if samples == [] {
      NothingCovered();
    } else {
      SortedIntervalsCover(samples[1..]);
      var rest, s := SortedIntervals(samples[1..]), samples[0];
      if s.duration > 0 {
        InsertSorted(rest, Interval(s.start, s.start + s.duration));
      } else {
        EmptyRange(s.start, s.start + s.duration);
      }
    }
  }

  lemma EmptyRange(lo: int, hi: int)
    requires hi <= lo
    ensures Range(lo, hi) == {}
  {
  }

  // ---------- The sweep ----------

  lemma UnionNext(intervals: seq<Interval>, k: nat)
    requires k < |intervals|
    ensures Union(intervals[..k + 1]) == Union(intervals[..k]) + Range(intervals[k].lo, intervals[k].hi)
  {
    assert intervals[..k + 1][..k] == intervals[..k];
  }

  /** `done` lies wholly before `start`. */
  ghost predicate AllBefore(done: set<int>, start: int) {
    forall t :: t in done ==> t < start
  }

  /** An interval that touches the current run extends it. */
  lemma Extend(done: set<int>, start: int, end: int, x: Interval)
    requires start < end && start <= x.lo <= end && x.lo < x.hi
    ensures done + Range(start, end) + Range(x.lo, x.hi) == done + Range(start, if x.hi > end then x.hi else end)
  {
  }

  /** A run that ends before the next interval starts is finished. */
  lemma Finish(done: set<int>, start: int, end: int, next: int)
    requires start < end <= next && AllBefore(done, start)
    ensures |done + Range(start, end)| == |done| + (end - start)
    ensures AllBefore(done + Range(start, end), next)
  {
    assert done !! Range(start, end);
  }

  /** The result is the number of instants covered by the samples, in whatever order they come. */
  method MergedDurationNs(samples: seq<Sample>) returns (total: int)
    ensures total == |Covered(samples)|
  {
    hide Covered, Range, Union, AllBefore;
    var intervals := SortedIntervals(samples);
    SortedIntervalsCover(samples);
    if intervals == [] {
      NothingCovered();
      return 0;
    }
    var mergedStart, mergedEnd := intervals[0].lo, intervals[0].hi;
    total := 0;
    ghost var done: set<int> := {};
    assert intervals[0] in intervals;
    FirstCovered(intervals);
    for k := 1 to |intervals|
      invariant mergedStart < mergedEnd && mergedStart <= intervals[k - 1].lo
      invariant AllBefore(done, mergedStart)
      invariant total == |done|
      invariant Union(intervals[..k]) == done + Range(mergedStart, mergedEnd)
    {
      var next := intervals[k];
      assert next in intervals && Before(intervals[k - 1], next);
      UnionNext(intervals, k);
      if next.lo <= mergedEnd {
        Extend(done, mergedStart, mergedEnd, next);
        mergedEnd := if next.hi > mergedEnd then next.hi else mergedEnd;
      } else {
        Finish(done, mergedStart, mergedEnd, next.lo);
        total := total + (mergedEnd - mergedStart);
        done := done + Range(mergedStart, mergedEnd);
        mergedStart, mergedEnd := next.lo, next.hi;
      }
    }
    assert intervals[..|intervals|] == intervals;
    Finish(done, mergedStart, mergedEnd, mergedEnd);
    total := total + (mergedEnd - mergedStart);
  }

  lemma NothingCovered()
    ensures Union([]) == {} && Sorted([])
  {
  }

  lemma FirstCovered(intervals: seq<Interval>)
    requires intervals != []
    ensures AllBefore({}, intervals[0].lo)
    ensures Union(intervals[..1]) == {} + Range(intervals[0].lo, intervals[0].hi)
  {
    UnionNext(intervals, 0);
    assert intervals[..0] == [];
  }
}
