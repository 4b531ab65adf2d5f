/** Insertion-ordered collections of distinct keys, kept as sequences (oldest first). */
module OrderedKeys {

  predicate Distinct<T(==)>(s: seq<T>) {
    forall i, j :: 0 <= i < j < |s| ==> s[i] != s[j]
  }

  /** `s` without the first occurrence of `k`. */
  function Without<T(==)>(s: seq<T>, k: T): (r: seq<T>)
    ensures k !in s ==> r == s
    ensures k in s ==> |r| == |s| - 1
    ensures forall x :: x in r ==> x in s
    ensures forall x :: x in s && x != k ==> x in r
  {
    if s == [] then []
    else if s[0] == k then s[1..]
    else [s[0]] + Without(s[1..], k)
  }

  /** `s` with `k` added at the end unless it is already present. */
  function Append<T(==)>(s: seq<T>, k: T): seq<T> {
    if k in s then s else s + [k]
  }

  /** `s` with `k` moved, or added, to the end. */
  function MoveToEnd<T(==)>(s: seq<T>, k: T): seq<T> {
    Without(s, k) + [k]
  }

  /** The last `n` elements of `s`, or all of them. */
  function Suffix<T>(s: seq<T>, n: nat): (r: seq<T>)
    ensures |r| == if |s| < n then |s| else n
  {
    if |s| <= n then s else s[|s| - n..]
  }

  lemma {:induction false} WithoutDistinct<T>(s: seq<T>, k: T)
    requires Distinct(s)
    ensures Distinct(Without(s, k)) && k !in Without(s, k)
  {
    if s != [] && s[0] != k {
      WithoutDistinct(s[1..], k);
      var r := Without(s[1..], k);
      assert s[0] !in s[1..];
      assert Without(s, k) == [s[0]] + r;
    }
  }

  /** `Without` cuts out the first occurrence and keeps everything else in order. */
  lemma {:induction false} WithoutSplit<T>(s: seq<T>, k: T) returns (i: nat)
    requires k in s
    ensures i < |s| && s[i] == k && k !in s[..i] && Without(s, k) == s[..i] + s[i + 1..]
  {
    if s[0] == k {
      i := 0;
    } else {
      var j := WithoutSplit(s[1..], k);
      i := j + 1;
      assert s[..i] == [s[0]] + s[1..][..j];
      assert s[1..][j + 1..] == s[i + 1..];
    }
  }

  /** Every pair of `s`, earlier element first, is in order of `time`. */
  ghost predicate SortedBy<T(!new)>(s: seq<T>, time: T -> int) {
    forall i, j :: 0 <= i < j < |s| ==> time(s[i]) < time(s[j])
  }

  lemma WithoutSorted<T(!new)>(s: seq<T>, k: T, time: T -> int)
    requires SortedBy(s, time)
    ensures SortedBy(Without(s, k), time)
  {
    if k in s {
      var i := WithoutSplit(s, k);
    }
  }

  /** Moving a key to the end and giving it the latest time keeps the order. */
  lemma MoveToEndSorted<T(!new)>(s: seq<T>, k: T, time: T -> int, time': T -> int)
    requires Distinct(s) && SortedBy(s, time)
    requires forall x :: x in s && x != k ==> time'(x) == time(x) < time'(k)
    ensures SortedBy(MoveToEnd(s, k), time')
  {
    WithoutSorted(s, k, time);
    WithoutDistinct(s, k);
    var w := Without(s, k);
    assert forall i :: 0 <= i < |w| ==> w[i] in w;
  }

  ghost function Members<T>(s: seq<T>): set<T> {
    set x | x in s
  }

  lemma {:induction false} DistinctCount<T>(s: seq<T>)
    requires Distinct(s)
    ensures |Members(s)| == |s|
  {
    if s != [] {
      DistinctCount(s[1..]);
      assert s[0] !in s[1..];
      assert Members(s) == Members(s[1..]) + {s[0]};
    }
  }

  lemma {:induction false} WithoutConcat<T>(a: seq<T>, b: seq<T>, k: T)
    ensures Without(a + b, k) == if k in a then Without(a, k) + b else a + Without(b, k)
  {
    if a == [] {
      assert a + b == b;
    } else {
      assert (a + b)[1..] == a[1..] + b;
      WithoutConcat(a[1..], b, k);
    }
  }

  lemma AppendDistinct<T>(s: seq<T>, k: T)
    requires Distinct(s)
    ensures Distinct(Append(s, k))
    ensures forall x :: x in Append(s, k) <==> x in s || x == k
  {
  }

  lemma MoveToEndDistinct<T>(s: seq<T>, k: T)
    requires Distinct(s)
    ensures Distinct(MoveToEnd(s, k))
    ensures forall x :: x in MoveToEnd(s, k) <==> x in s || x == k
  {
    WithoutDistinct(s, k);
  }

  lemma SuffixDistinct<T>(s: seq<T>, n: nat)
    requires Distinct(s)
    ensures Distinct(Suffix(s, n))
    ensures forall x :: x in Suffix(s, n) ==> x in s
  {
  }
}
