/**
 * The selection part of Algorithms/SelectiveKanervaCoding.py: the prototype
 * array set up by the constructor, the in-place `partition` (a Lomuto
 * partition around the last element of the range) and the recursive
 * `QuickSelect` built on it.
 *
 * Each in-place method is proved against a function on sequences that
 * replays it (`Partitioned`, `Select`), and what the code promises is proved
 * about those functions: `partition` splits the range around its pivot and
 * only permutes the range; whatever `QuickSelect` returns is the k-th
 * smallest element of the original range.
 */
module KanervaCoding {
  import opened Outcomes

  // ---------------------------------------------------------------------
  // What "the k-th smallest element" means
  // ---------------------------------------------------------------------

  /** Number of entries of `s` strictly below `v`. */
  function CountLess(s: seq<int>, v: int): (n: nat)
    ensures n <= |s|
  {
    if s == [] then 0 else (if s[0] < v then 1 else 0) + CountLess(s[1..], v)
  }

  /** Number of entries of `s` that are at most `v`. */
  function CountAtMost(s: seq<int>, v: int): (n: nat)
    ensures n <= |s|
  {
    if s == [] then 0 else (if s[0] <= v then 1 else 0) + CountAtMost(s[1..], v)
  }

  /**
   * `v` is the k-th smallest (1-based) entry of `s`: it occurs in `s`, fewer
   * than k entries lie below it and at least k entries are at most it.
   * This is what position k-1 of any sorted copy of `s` holds.
   */
  predicate IsKthSmallest(s: seq<int>, k: int, v: int)
  {
    v in s && CountLess(s, v) < k <= CountAtMost(s, v)
  }

  lemma {:induction false} CountConcat(a: seq<int>, b: seq<int>, v: int)
    ensures CountLess(a + b, v) == CountLess(a, v) + CountLess(b, v)
    ensures CountAtMost(a + b, v) == CountAtMost(a, v) + CountAtMost(b, v)
  {
    if a == [] {
      assert a + b == b;
    } else {
      assert (a + b)[1..] == a[1..] + b;
      CountConcat(a[1..], b, v);
    }
  }

  /** The counts only depend on the multiset of entries. */
  lemma {:induction false} CountPermutation(a: seq<int>, b: seq<int>, v: int)
    requires multiset(a) == multiset(b)
    ensures CountLess(a, v) == CountLess(b, v)
    ensures CountAtMost(a, v) == CountAtMost(b, v)
    decreases |a|
  {
    if a == [] {
      assert |b| == |multiset(b)| == 0;
    } else {
      assert a[0] in multiset(b);
      var i :| 0 <= i < |b| && b[i] == a[0];
      CountRemove(b, i, v);
      assert a == [a[0]] + a[1..];
      assert multiset(a[1..]) == multiset(a) - multiset{a[0]};
      CountPermutation(a[1..], b[..i] + b[i + 1..], v);
    }
  }

  /** Removing the entry at `i` removes it from the multiset and from the counts. */
  lemma CountRemove(b: seq<int>, i: int, v: int)
    requires 0 <= i < |b|
    ensures multiset(b[..i] + b[i + 1..]) == multiset(b) - multiset{b[i]}
    ensures CountLess(b, v) == CountLess(b[..i] + b[i + 1..], v) + (if b[i] < v then 1 else 0)
    ensures CountAtMost(b, v) == CountAtMost(b[..i] + b[i + 1..], v) + (if b[i] <= v then 1 else 0)
  {
    assert b == b[..i] + [b[i]] + b[i + 1..];
    CountConcat(b[..i], b[i + 1..], v);
    CountConcat(b[..i] + [b[i]], b[i + 1..], v);
    CountConcat(b[..i], [b[i]], v);
  }

  lemma {:induction false} CountAllAtMost(s: seq<int>, v: int)
    requires forall m :: 0 <= m < |s| ==> s[m] <= v
    ensures CountAtMost(s, v) == |s|
  {
    if s != [] {
      CountAllAtMost(s[1..], v);
    }
  }

  lemma {:induction false} CountAllBelow(s: seq<int>, v: int)
    requires forall m :: 0 <= m < |s| ==> s[m] < v
    ensures CountLess(s, v) == |s| && CountAtMost(s, v) == |s|
  {
    if s != [] {
      CountAllBelow(s[1..], v);
    }
  }

  lemma {:induction false} CountAllAtLeast(s: seq<int>, v: int)
    requires forall m :: 0 <= m < |s| ==> s[m] >= v
    ensures CountLess(s, v) == 0
  {
    if s != [] {
      CountAllAtLeast(s[1..], v);
    }
  }

  lemma {:induction false} CountAllAbove(s: seq<int>, v: int)
    requires forall m :: 0 <= m < |s| ==> s[m] > v
    ensures CountLess(s, v) == 0 && CountAtMost(s, v) == 0
  {
    if s != [] {
      CountAllAbove(s[1..], v);
    }
  }

  /** A value has at most one rank: the k-th smallest is unique. */
  lemma KthSmallestUnique(s: seq<int>, k: int, v: int, w: int)
    requires IsKthSmallest(s, k, v) && IsKthSmallest(s, k, w)
    ensures v == w
  {
    if v < w {
      CountBelowGrows(s, v, w);
    } else if w < v {
      CountBelowGrows(s, w, v);
    }
  }

  lemma {:induction false} CountBelowGrows(s: seq<int>, v: int, w: int)
    requires v < w
    ensures CountAtMost(s, v) <= CountLess(s, w)
  {
    if s != [] {
      CountBelowGrows(s[1..], v, w);
    }
  }

  // ---------------------------------------------------------------------
  // partition (lines 22-41)
  // ---------------------------------------------------------------------

  /** `s` with the entries at `i` and `j` exchanged. */
  function Swap(s: seq<int>, i: int, j: int): (r: seq<int>)
    requires 0 <= i < |s| && 0 <= j < |s|
    ensures |r| == |s| && r[i] == s[j] && r[j] == s[i]
    ensures forall m :: 0 <= m < |s| && m != i && m != j ==> r[m] == s[m]
  {
    s[i := s[j]][j := s[i]]
  }

  lemma SwapPermutes(s: seq<int>, i: int, j: int)
    requires 0 <= i < |s| && 0 <= j < |s|
    ensures multiset(Swap(s, i, j)) == multiset(s)
  {
  }

  /**
   * The `for j in range(left, right)` loop of `partition` from iteration `j`
   * on, with the next slot for a small entry at `i` and the pivot `x`,
   * followed by the final swap: the array it leaves and the index it returns.
   */
  function PartitionFrom(s: seq<int>, x: int, i: int, j: int, right: int): (r: (seq<int>, int))
    requires 0 <= i <= j <= right < |s|
    ensures |r.0| == |s| && i <= r.1 <= right
    decreases right - j
  {
    if j == right then (Swap(s, i, right), i)
    else if s[j] <= x then PartitionFrom(Swap(s, i, j), x, i + 1, j + 1, right)
    else PartitionFrom(s, x, i, j + 1, right)
  }

  /** `partition(array, left, right)`: the array afterwards and the pivot's index. */
  function Partitioned(s: seq<int>, left: int, right: int): (r: (seq<int>, int))
    requires 0 <= left <= right < |s|
    ensures |r.0| == |s| && left <= r.1 <= right
  {
    PartitionFrom(s, s[right], left, left, right)
  }

  /** `t` is a permutation of `s` that agrees with `s` outside [left, right]. */
  ghost predicate PermutesRange(s: seq<int>, t: seq<int>, left: int, right: int)
  {
    |t| == |s| && multiset(t) == multiset(s)
    && forall m :: 0 <= m < |s| && !(left <= m <= right) ==> t[m] == s[m]
  }

  /**
   * What `partition` promises: `p` lies in [left, right] and holds the old
   * last entry of the range, everything in [left, p) is at most it,
   * everything in (p, right] is above it, and only the range was permuted.
   */
  ghost predicate PartitionsAround(s: seq<int>, t: seq<int>, left: int, right: int, p: int)
    requires 0 <= left <= right < |s|
  {
    PermutesRange(s, t, left, right) && SplitsAt(t, s[right], left, right, p)
  }

  lemma {:induction false} PartitionFromCorrect(s: seq<int>, x: int, left: int, i: int, j: int, right: int)
    requires 0 <= left <= i <= j <= right < |s| && s[right] == x
    requires forall m :: left <= m < i ==> s[m] <= x
    requires forall m :: i <= m < j ==> s[m] > x
    ensures PermutesRange(s, PartitionFrom(s, x, i, j, right).0, left, right)
    ensures SplitsAt(PartitionFrom(s, x, i, j, right).0, x, left, right, PartitionFrom(s, x, i, j, right).1)
    decreases right - j, 1
  {
    if j == right {
      FinalSwapSplits(s, x, left, i, right);
    } else if s[j] <= x {
      SmallEntryPermutes(s, x, left, i, j, right);
      SmallEntrySplits(s, x, left, i, j, right);
    } else {
      PartitionFromCorrect(s, x, left, i, j + 1, right);
    }
  }

  /** The iteration that swaps a small entry into the block, followed by the rest of the loop, only permutes the range. */
  lemma {:induction false} SmallEntryPermutes(s: seq<int>, x: int, left: int, i: int, j: int, right: int)
    requires 0 <= left <= i <= j < right < |s| && s[right] == x && s[j] <= x
    requires forall m :: left <= m < i ==> s[m] <= x
    requires forall m :: i <= m < j ==> s[m] > x
    ensures PermutesRange(s, PartitionFrom(s, x, i, j, right).0, left, right)
    decreases right - j, 0
  {
    var s' := Swap(s, i, j);
    var r := PartitionFrom(s', x, i + 1, j + 1, right);
    assert PartitionFrom(s, x, i, j, right) == r;
    SmallEntryStep(s, x, left, i, j, right);
    PartitionFromCorrect(s', x, left, i + 1, j + 1, right);
    PermutesRangeTrans(s, s', r.0, left, right);
  }

  /** The same iteration and the rest of the loop split the range around the pivot. */
  lemma {:induction false} SmallEntrySplits(s: seq<int>, x: int, left: int, i: int, j: int, right: int)
    requires 0 <= left <= i <= j < right < |s| && s[right] == x && s[j] <= x
    requires forall m :: left <= m < i ==> s[m] <= x
    requires forall m :: i <= m < j ==> s[m] > x
    ensures SplitsAt(PartitionFrom(s, x, i, j, right).0, x, left, right, PartitionFrom(s, x, i, j, right).1)
    decreases right - j, 0
  {
    var s' := Swap(s, i, j);
    assert PartitionFrom(s, x, i, j, right) == PartitionFrom(s', x, i + 1, j + 1, right);
    SmallEntryStep(s, x, left, i, j, right);
    PartitionFromCorrect(s', x, left, i + 1, j + 1, right);
  }

  /** The swap after the loop puts the pivot between the small and the large entries. */
  lemma FinalSwapSplits(s: seq<int>, x: int, left: int, i: int, right: int)
    requires 0 <= left <= i <= right < |s| && s[right] == x
    requires forall m :: left <= m < i ==> s[m] <= x
    requires forall m :: i <= m < right ==> s[m] > x
    ensures PermutesRange(s, Swap(s, i, right), left, right)
    ensures SplitsAt(Swap(s, i, right), x, left, right, i)
  {
    SwapPermutes(s, i, right);
  }

  /** Swapping a small entry at `j` into slot `i` grows the small block by one. */
  lemma SmallEntryStep(s: seq<int>, x: int, left: int, i: int, j: int, right: int)
    requires 0 <= left <= i <= j < right < |s| && s[right] == x && s[j] <= x
    requires forall m :: left <= m < i ==> s[m] <= x
    requires forall m :: i <= m < j ==> s[m] > x
    ensures PermutesRange(s, Swap(s, i, j), left, right) && Swap(s, i, j)[right] == x
    ensures forall m :: left <= m < i + 1 ==> Swap(s, i, j)[m] <= x
    ensures forall m :: i + 1 <= m < j + 1 ==> Swap(s, i, j)[m] > x
  {
    SwapPermutes(s, i, j);
  }

  /** `t` has `x` at `p` in [left, right], entries at most `x` before it and above `x` after it. */
  ghost predicate SplitsAt(t: seq<int>, x: int, left: int, right: int, p: int)
  {
    0 <= left <= p <= right < |t| && t[p] == x
    && (forall m :: left <= m < p ==> t[m] <= x)
    && (forall m :: p < m <= right ==> t[m] > x)
  }

  lemma PermutesRangeTrans(s: seq<int>, t: seq<int>, u: seq<int>, left: int, right: int)
    requires PermutesRange(s, t, left, right) && PermutesRange(t, u, left, right)
    ensures PermutesRange(s, u, left, right)
  {
  }

  /** `partition` keeps its promise for every range inside the array. */
  lemma PartitionCorrect(s: seq<int>, left: int, right: int)
    requires 0 <= left <= right < |s|
    ensures PartitionsAround(s, Partitioned(s, left, right).0, left, right, Partitioned(s, left, right).1)
  {
    PartitionFromCorrect(s, s[right], left, left, left, right);
  }

  /** A permutation of the whole array that fixes the outside permutes the range itself. */
  lemma RangeMultiset(s: seq<int>, t: seq<int>, left: int, right: int)
    requires 0 <= left <= right + 1 <= |s|
    requires PermutesRange(s, t, left, right)
    ensures multiset(t[left..right + 1]) == multiset(s[left..right + 1])
  {
    var lo, hi := s[..left], s[right + 1..];
    OutsideAgrees(s, t, left, right);
    assert s == lo + s[left..right + 1] + hi;
    assert t == lo + t[left..right + 1] + hi;
    MultisetCancel(lo, t[left..right + 1], s[left..right + 1], hi);
  }

  /** Outside the range, `t` is `s`. */
  lemma OutsideAgrees(s: seq<int>, t: seq<int>, left: int, right: int)
    requires 0 <= left <= right + 1 <= |s|
    requires PermutesRange(s, t, left, right)
    ensures t[..left] == s[..left] && t[right + 1..] == s[right + 1..]
  {
    forall m | 0 <= m < |s| && !(left <= m <= right)
      ensures t[m] == s[m]
    {
    }
    assert t[..left] == s[..left];
    assert t[right + 1..] == s[right + 1..];
  }

  /** Equal multisets with the same prefix and suffix removed stay equal. */
  lemma MultisetCancel(lo: seq<int>, a: seq<int>, b: seq<int>, hi: seq<int>)
    requires multiset(lo + a + hi) == multiset(lo + b + hi)
    ensures multiset(a) == multiset(b)
  {
    assert multiset(lo + a + hi) == multiset(lo) + multiset(a) + multiset(hi);
    assert multiset(lo + b + hi) == multiset(lo) + multiset(b) + multiset(hi);
    forall v ensures multiset(a)[v] == multiset(b)[v] {
      assert (multiset(lo) + multiset(a) + multiset(hi))[v] == (multiset(lo) + multiset(b) + multiset(hi))[v];
    }
  }

  // ---------------------------------------------------------------------
  // QuickSelect (lines 43-70)
  // ---------------------------------------------------------------------

  /** The guard at line 53, as written: `k` is compared with the absolute index `left`. */
  predicate GuardAsWritten(left: int, right: int, k: int)
  {
    k > left && k <= right - left + 1
  }

  /** The guard as evidently intended: `k` counts from 1 within the range. */
  predicate GuardIntended(left: int, right: int, k: int)
  {
    k > 0 && k <= right - left + 1
  }

  /**
   * `QuickSelect(array, left, right, k)` on a copy of the array: the array it
   * leaves and what it returns (`None` where the Python prints "Index out of
   * bounds" and falls off the end). `asWritten` picks the guard.
   */
  function SelectWith(s: seq<int>, left: int, right: int, k: int, asWritten: bool): (seq<int>, Option<int>)
    requires 0 <= left && right < |s|
    decreases right - left + 1
  {
    if (if asWritten then GuardAsWritten(left, right, k) else GuardIntended(left, right, k)) then
      var (t, p) := Partitioned(s, left, right);
      if p - left == k - 1 then (t, Some(t[p]))
      else if p - left > k - 1 then SelectWith(t, left, p - 1, k, asWritten)
      else SelectWith(t, p + 1, right, k - p + left - 1, asWritten)
    else (s, None)
  }

  /** The source's QuickSelect. */
  function Select(s: seq<int>, left: int, right: int, k: int): (seq<int>, Option<int>)
    requires 0 <= left && right < |s|
  {
    SelectWith(s, left, right, k, true)
  }

  /** QuickSelect with the guard corrected. */
  function SelectFixed(s: seq<int>, left: int, right: int, k: int): (seq<int>, Option<int>)
    requires 0 <= left && right < |s|
  {
    SelectWith(s, left, right, k, false)
  }

  lemma CountSplit(seg: seq<int>, low: seq<int>, x: int, high: seq<int>, v: int)
    requires seg == low + [x] + high
    ensures CountLess(seg, v) == CountLess(low, v) + (if x < v then 1 else 0) + CountLess(high, v)
    ensures CountAtMost(seg, v) == CountAtMost(low, v) + (if x <= v then 1 else 0) + CountAtMost(high, v)
  {
    CountConcat(low + [x], high, v);
    CountConcat(low, [x], v);
    assert [x][1..] == [];
  }

  /**
   * Soundness of both guards: the array only has its range permuted, and a
   * returned value is the k-th smallest entry of the original range.
   */
  lemma {:induction false} SelectSound(s: seq<int>, left: int, right: int, k: int, asWritten: bool)
    requires 0 <= left && right < |s|
    ensures PermutesRange(s, SelectWith(s, left, right, k, asWritten).0, left, right)
    ensures SelectWith(s, left, right, k, asWritten).1.Some? ==>
      left <= right && IsKthSmallest(s[left..right + 1], k, SelectWith(s, left, right, k, asWritten).1.value)
    decreases right - left + 1, 1
  {
    if (if asWritten then GuardAsWritten(left, right, k) else GuardIntended(left, right, k)) {
      var (t, p) := Partitioned(s, left, right);
      PartitionCorrect(s, left, right);
      RangeMultiset(s, t, left, right);
      if p - left == k - 1 {
        PivotRank(s, t, left, right, p);
      } else if p - left > k - 1 {
        SelectLowSound(s, t, left, right, p, k, asWritten);
      } else {
        SelectHighSound(s, t, left, right, p, k, asWritten);
      }
    }
  }

  /** A call that recurses into the low part after partitioning. */
  lemma {:induction false} SelectLowSound(s: seq<int>, t: seq<int>, left: int, right: int, p: int, k: int, asWritten: bool)
    requires 0 <= left <= right < |s|
    requires if asWritten then GuardAsWritten(left, right, k) else GuardIntended(left, right, k)
    requires Partitioned(s, left, right) == (t, p) && p - left > k - 1
    requires PartitionsAround(s, t, left, right, p)
    requires multiset(t[left..right + 1]) == multiset(s[left..right + 1])
    ensures PermutesRange(s, SelectWith(s, left, right, k, asWritten).0, left, right)
    ensures SelectWith(s, left, right, k, asWritten).1.Some? ==>
      IsKthSmallest(s[left..right + 1], k, SelectWith(s, left, right, k, asWritten).1.value)
    decreases right - left + 1, 0
  {
    var res := SelectWith(t, left, p - 1, k, asWritten);
    assert SelectWith(s, left, right, k, asWritten) == res;
    SelectSound(t, left, p - 1, k, asWritten);
    LowCase(s, t, res.0, left, right, p, k, res.1);
  }

  /** A call that recurses into the high part after partitioning. */
  lemma {:induction false} SelectHighSound(s: seq<int>, t: seq<int>, left: int, right: int, p: int, k: int, asWritten: bool)
    requires 0 <= left <= right < |s|
    requires if asWritten then GuardAsWritten(left, right, k) else GuardIntended(left, right, k)
    requires Partitioned(s, left, right) == (t, p) && p - left < k - 1
    requires PartitionsAround(s, t, left, right, p)
    requires multiset(t[left..right + 1]) == multiset(s[left..right + 1])
    ensures PermutesRange(s, SelectWith(s, left, right, k, asWritten).0, left, right)
    ensures SelectWith(s, left, right, k, asWritten).1.Some? ==>
      IsKthSmallest(s[left..right + 1], k, SelectWith(s, left, right, k, asWritten).1.value)
    decreases right - left + 1, 0
  {
    var k' := k - p + left - 1;
    var res := SelectWith(t, p + 1, right, k', asWritten);
    assert SelectWith(s, left, right, k, asWritten) == res;
    SelectSound(t, p + 1, right, k', asWritten);
    HighCase(s, t, res.0, left, right, p, k', res.1);
  }

  /** Recursing into the low part keeps both promises for the whole range. */
  lemma LowCase(s: seq<int>, t: seq<int>, u: seq<int>, left: int, right: int, p: int, k: int, r: Option<int>)
    requires 0 <= left <= right < |s|
    requires PartitionsAround(s, t, left, right, p)
    requires multiset(t[left..right + 1]) == multiset(s[left..right + 1])
    requires PermutesRange(t, u, left, p - 1)
    requires r.Some? ==> left <= p - 1 && IsKthSmallest(t[left..p - 1 + 1], k, r.value)
    ensures PermutesRange(s, u, left, right)
    ensures r.Some? ==> IsKthSmallest(s[left..right + 1], k, r.value)
  {
    PermutesRangeWiden(t, u, left, p - 1, left, right);
    PermutesRangeTrans(s, t, u, left, right);
    if r.Some? {
      LowRank(s, t, left, right, p, k, r.value);
    }
  }

  /** Recursing into the high part keeps both promises for the whole range. */
  lemma HighCase(s: seq<int>, t: seq<int>, u: seq<int>, left: int, right: int, p: int, k': int, r: Option<int>)
    requires 0 <= left <= right < |s|
    requires PartitionsAround(s, t, left, right, p)
    requires multiset(t[left..right + 1]) == multiset(s[left..right + 1])
    requires PermutesRange(t, u, p + 1, right)
    requires r.Some? ==> p + 1 <= right && IsKthSmallest(t[p + 1..right + 1], k', r.value)
    ensures PermutesRange(s, u, left, right)
    ensures r.Some? ==> IsKthSmallest(s[left..right + 1], k' + p - left + 1, r.value)
  {
    PermutesRangeWiden(t, u, p + 1, right, left, right);
    PermutesRangeTrans(s, t, u, left, right);
    if r.Some? {
      HighRank(s, t, left, right, p, k', r.value);
    }
  }

  lemma PermutesRangeWiden(t: seq<int>, u: seq<int>, lo: int, hi: int, left: int, right: int)
    requires PermutesRange(t, u, lo, hi) && left <= lo && hi <= right
    ensures PermutesRange(t, u, left, right)
  {
  }

  /** The range of `t` split at `p` into the low part, the pivot and the high part. */
  lemma SplitRange(t: seq<int>, x: int, left: int, right: int, p: int) returns (low: seq<int>, high: seq<int>)
    requires SplitsAt(t, x, left, right, p)
    ensures low == t[left..p] && high == t[p + 1..right + 1]
    ensures t[left..right + 1] == low + [x] + high
    ensures forall m :: 0 <= m < |low| ==> low[m] <= x
    ensures forall m :: 0 <= m < |high| ==> high[m] > x
  {
    low, high := t[left..p], t[p + 1..right + 1];
    assert forall m :: 0 <= m < |low| ==> low[m] == t[left + m];
    assert forall m :: 0 <= m < |high| ==> high[m] == t[p + 1 + m];
  }

  /** The pivot's place in the partitioned range is its rank. */
  lemma PivotRank(s: seq<int>, t: seq<int>, left: int, right: int, p: int)
    requires 0 <= left <= right < |s|
    requires PartitionsAround(s, t, left, right, p)
    requires multiset(t[left..right + 1]) == multiset(s[left..right + 1])
    ensures IsKthSmallest(s[left..right + 1], p - left + 1, t[p])
  {
    var x := t[p];
    var low, high := SplitRange(t, x, left, right, p);
    CountSplit(t[left..right + 1], low, x, high, x);
    CountAllAtMost(low, x);
    CountAllAbove(high, x);
    CountPermutation(s[left..right + 1], t[left..right + 1], x);
    assert x in multiset(t[left..right + 1]);
  }

  /** A k-th smallest of the low part is the k-th smallest of the whole range. */
  lemma LowRank(s: seq<int>, t: seq<int>, left: int, right: int, p: int, k: int, v: int)
    requires 0 <= left <= right < |s|
    requires PartitionsAround(s, t, left, right, p)
    requires multiset(t[left..right + 1]) == multiset(s[left..right + 1])
    requires left <= p - 1 && IsKthSmallest(t[left..p - 1 + 1], k, v)
    ensures IsKthSmallest(s[left..right + 1], k, v)
  {
    var x := t[p];
    var low, high := SplitRange(t, x, left, right, p);
    assert low == t[left..p - 1 + 1];
    var m :| 0 <= m < |low| && low[m] == v;
    CountSplit(t[left..right + 1], low, x, high, v);
    CountAllAtLeast(high, v);
    CountPermutation(s[left..right + 1], t[left..right + 1], v);
    assert v in multiset(t[left..right + 1]);
  }

  /** The k'-th smallest of the high part has rank k' + (p - left + 1) in the whole range. */
  lemma HighRank(s: seq<int>, t: seq<int>, left: int, right: int, p: int, k': int, v: int)
    requires 0 <= left <= right < |s|
    requires PartitionsAround(s, t, left, right, p)
    requires multiset(t[left..right + 1]) == multiset(s[left..right + 1])
    requires p + 1 <= right && IsKthSmallest(t[p + 1..right + 1], k', v)
    ensures IsKthSmallest(s[left..right + 1], k' + p - left + 1, v)
  {
    var x := t[p];
    var low, high := SplitRange(t, x, left, right, p);
    var m :| 0 <= m < |high| && high[m] == v;
    CountSplit(t[left..right + 1], low, x, high, v);
    CountAllBelow(low, v);
    CountPermutation(s[left..right + 1], t[left..right + 1], v);
    assert v in multiset(t[left..right + 1]);
  }

  /** With the intended guard, QuickSelect answers exactly the ranks inside the range. */
  lemma {:induction false} SelectFixedComplete(s: seq<int>, left: int, right: int, k: int)
    requires 0 <= left && right < |s|
    ensures SelectFixed(s, left, right, k).1.Some? <==> 1 <= k <= right - left + 1
    decreases right - left + 1
  {
    if GuardIntended(left, right, k) {
      var (t, p) := Partitioned(s, left, right);
      if p - left > k - 1 {
        SelectFixedComplete(t, left, p - 1, k);
      } else if p - left < k - 1 {
        SelectFixedComplete(t, p + 1, right, k - p + left - 1);
      }
    }
  }

  /**
   * The corrected QuickSelect returns a value exactly when 1 <= k <= the
   * range's length, and that value is the k-th smallest entry of the range.
   */
  lemma SelectFixedCorrect(s: seq<int>, left: int, right: int, k: int)
    requires 0 <= left && right < |s|
    ensures SelectFixed(s, left, right, k).1.Some? <==> 1 <= k <= right - left + 1
    ensures SelectFixed(s, left, right, k).1.Some? ==>
      IsKthSmallest(s[left..right + 1], k, SelectFixed(s, left, right, k).1.value)
  {
    SelectFixedComplete(s, left, right, k);
    SelectSound(s, left, right, k, false);
  }

  /**
   * The guard as written loses ranks: on [3, 1, 2] the third smallest entry
   * is 3, but the search for it moves right to the range [2, 2] with k = 1,
   * and `1 > 2` fails, so QuickSelect returns None.
   */
  lemma QuickSelectMissesRank()
    ensures IsKthSmallest([3, 1, 2], 3, 3)
    ensures Select([3, 1, 2], 0, 2, 3).1 == None
  {
    var s := [3, 1, 2];
    assert PartitionFrom(s, 2, 0, 0, 2) == PartitionFrom(s, 2, 0, 1, 2);
    assert Swap(s, 0, 1) == [1, 3, 2];
    assert PartitionFrom(s, 2, 0, 1, 2) == PartitionFrom([1, 3, 2], 2, 1, 2, 2);
    assert Swap([1, 3, 2], 1, 2) == [1, 2, 3];
    assert Partitioned(s, 0, 2) == ([1, 2, 3], 1);
    assert SelectWith(s, 0, 2, 3, true) == SelectWith([1, 2, 3], 2, 2, 1, true);
    assert CountLess(s, 3) == 2 by {
      assert s[1..] == [1, 2];
      assert s[1..][1..] == [2];
      assert s[1..][1..][1..] == [];
    }
  }

  /** When no entry of [j, right) exceeds the pivot, every swap is trivial and the pivot stays put. */
  lemma {:induction false} PartitionAllSmall(s: seq<int>, x: int, j: int, right: int)
    requires 0 <= j <= right < |s|
    requires forall m :: j <= m < right ==> s[m] <= x
    ensures PartitionFrom(s, x, j, j, right) == (s, right)
    decreases right - j
  {
    assert Swap(s, j, j) == s;
    if j < right {
      PartitionAllSmall(s, x, j + 1, right);
    }
  }

  /** The file's own demonstration: the smallest of [10, 4, 5, 8, 6, 11, 26] is 4. */
  lemma DemoSelectsFour()
    ensures Select([10, 4, 5, 8, 6, 11, 26], 0, 6, 1).1 == Some(4)
  {
    var s := [10, 4, 5, 8, 6, 11, 26];
    PartitionAllSmall(s, 26, 0, 6);
    PartitionAllSmall(s, 11, 0, 5);
    assert SelectWith(s, 0, 6, 1, true) == SelectWith(s, 0, 5, 1, true);
    assert SelectWith(s, 0, 5, 1, true) == SelectWith(s, 0, 4, 1, true);
    var t := DemoPartitionAroundSix();
    assert SelectWith(s, 0, 4, 1, true) == SelectWith(t, 0, 1, 1, true);
    PartitionAllSmall(t, 5, 0, 1);
    assert SelectWith(t, 0, 1, 1, true) == SelectWith(t, 0, 0, 1, true);
    PartitionAllSmall(t, 4, 0, 0);
  }

  /** Around 6, the entries 4 and 5 move to the front and 6 lands at index 2. */
  lemma DemoPartitionAroundSix() returns (t: seq<int>)
    ensures t == [4, 5, 6, 8, 10, 11, 26]
    ensures Partitioned([10, 4, 5, 8, 6, 11, 26], 0, 4) == (t, 2)
  {
    var s := [10, 4, 5, 8, 6, 11, 26];
    var s1 := [4, 10, 5, 8, 6, 11, 26];
    var s2 := [4, 5, 10, 8, 6, 11, 26];
    t := [4, 5, 6, 8, 10, 11, 26];
    assert Swap(s, 0, 1) == s1;
    assert Swap(s1, 1, 2) == s2;
    assert Swap(s2, 2, 4) == t;
    calc {
      PartitionFrom(s, 6, 0, 0, 4);
      PartitionFrom(s1, 6, 1, 2, 4);
      PartitionFrom(s2, 6, 2, 3, 4);
      PartitionFrom(s2, 6, 2, 4, 4);
      (t, 2);
    }
  }

  // ---------------------------------------------------------------------
  // The class: prototypes, and the two in-place methods
  // ---------------------------------------------------------------------

  class SelectiveKanervaCoding {
    /** Number of prototypes. */
    const K: nat
    /** Number of sensors, the dimension of a prototype. */
    const n: nat
    /** The list of resolutions (how many nearest prototypes each activates). */
    const c: seq<nat>
    /** The prototypes: K rows of n coordinates. */
    const P: array2<real>

    /**
     * `__init__`: stores the sizes and draws `P` with `np.random.rand(K, n)`;
     * the draw is the parameter `uniform`, whose values lie in [0, 1).
     */
    constructor (numPrototypes: nat, numSensors: nat, cList: seq<nat>, uniform: (nat, nat) -> real)
      requires forall i: nat, j: nat :: 0.0 <= uniform(i, j) < 1.0
      ensures K == numPrototypes && n == numSensors && c == cList
      ensures fresh(P) && P.Length0 == K && P.Length1 == n
      ensures forall i, j :: 0 <= i < K && 0 <= j < n ==> P[i, j] == uniform(i, j)
      ensures forall i, j :: 0 <= i < K && 0 <= j < n ==> 0.0 <= P[i, j] < 1.0
    {
      K, n, c := numPrototypes, numSensors, cList;
      P := new real[numPrototypes, numSensors]((i: int, j: int) requires i >= 0 && j >= 0 => uniform(i, j));
    }

    /**
     * `partition(array, left, right)`: a Lomuto partition around
     * `array[right]`, in place, returning the pivot's final index.
     */
    method Partition(a: array<int>, left: int, right: int) returns (i: int)
      requires 0 <= left <= right < a.Length
      modifies a
      ensures (a[..], i) == Partitioned(old(a[..]), left, right)
      ensures PartitionsAround(old(a[..]), a[..], left, right, i)
    {
      var x := a[right];
      i := left;
      for j := left to right
        invariant left <= i <= j
        invariant PartitionFrom(a[..], x, i, j, right) == Partitioned(old(a[..]), left, right)
      {
        if a[j] <= x {
          a[i], a[j] := a[j], a[i];
          i := i + 1;
        }
      }
      a[i], a[right] := a[right], a[i];
      PartitionCorrect(old(a[..]), left, right);
    }

    /**
     * `QuickSelect(array, left, right, k)`: the k-th smallest entry of
     * `array[left..right]`, or None (where the source prints
     * "Index out of bounds") when the guard at line 53 fails.
     */
    method QuickSelect(a: array<int>, left: int, right: int, k: int) returns (r: Option<int>)
      requires 0 <= left && right < a.Length
      modifies a
      ensures (a[..], r) == Select(old(a[..]), left, right, k)
      ensures PermutesRange(old(a[..]), a[..], left, right)
      ensures r.Some? ==> left <= right && IsKthSmallest(old(a[..])[left..right + 1], k, r.value)
      decreases right - left + 1
    {
      SelectSound(a[..], left, right, k, true);
      if k > left && k <= right - left + 1 {
        var pivotIndex := Partition(a, left, right);
        if pivotIndex - left == k - 1 {
          return Some(a[pivotIndex]);
        }
        if pivotIndex - left > k - 1 {
          r := QuickSelect(a, left, pivotIndex - 1, k);
          return;
        }
        r := QuickSelect(a, pivotIndex + 1, right, k - pivotIndex + left - 1);
        return;
      }
      return None;
    }
  }
}
