/**
 Nearest-rank percentiles: quickselect with Hoare's partition, in place, finds what sorting
 finds.
 */
module Percentile {

  // ----- ranks ---------------------------------------------------------------------------

  /** How many elements are smaller than `v`. */
  function Below(s: seq<real>, v: real): (n: nat) {
    if s == [] then 0 else Below(s[1..], v) + if s[0] < v then 1 else 0
  }

  /** How many elements are at most `v`. */
  function AtMost(s: seq<real>, v: real): (n: nat) {
    if s == [] then 0 else AtMost(s[1..], v) + if s[0] <= v then 1 else 0
  }

  /** `v` is the k-th smallest element, counting from 0. */
  predicate IsKth(s: seq<real>, k: nat, v: real) {
    Below(s, v) <= k < AtMost(s, v)
  }

  lemma {:induction false} BelowAtMost(s: seq<real>, v: real, w: real)
    requires v < w
    ensures AtMost(s, v) <= Below(s, w)
  {
    if s != [] {
      BelowAtMost(s[1..], v, w);
    }
  }

  lemma KthUnique(s: seq<real>, k: nat, v: real, w: real)
    requires IsKth(s, k, v) && IsKth(s, k, w)
    ensures v == w
  {
    if v < w {
      BelowAtMost(s, v, w);
    } else if w < v {
      BelowAtMost(s, w, v);
    }
  }

  lemma {:induction false} CountsConcat(a: seq<real>, b: seq<real>, v: real)
    ensures Below(a + b, v) == Below(a, v) + Below(b, v) && AtMost(a + b, v) == AtMost(a, v) + AtMost(b, v)
  {
    if a == [] {
      assert a + b == b;
    } else {
      assert (a + b)[1..] == a[1..] + b;
      CountsConcat(a[1..], b, v);
    }
  }

  /** Taking one element out of the middle. */
  lemma CountsWithout(t: seq<real>, i: nat, v: real)
    requires i < |t|
    ensures Below(t, v) == Below(t[..i] + t[i + 1..], v) + if t[i] < v then 1 else 0
    ensures AtMost(t, v) == AtMost(t[..i] + t[i + 1..], v) + if t[i] <= v then 1 else 0
    ensures multiset(t) == multiset(t[..i] + t[i + 1..]) + multiset{t[i]}
  {
    assert t == t[..i] + ([t[i]] + t[i + 1..]);
    CountsConcat(t[..i], t[i + 1..], v);
    CountsConcat(t[..i], [t[i]] + t[i + 1..], v);
    CountsConcat([t[i]], t[i + 1..], v);
  }

  lemma CancelOne(a: multiset<real>, b: multiset<real>, x: real)
    requires a + multiset{x} == b + multiset{x}
    ensures a == b
  {
    assert a == (a + multiset{x}) - multiset{x};
    assert b == (b + multiset{x}) - multiset{x};
  }

  /** Ranks depend only on which elements there are. */
  lemma {:induction false} CountsOfMultiset(s: seq<real>, t: seq<real>, v: real)
    requires multiset(s) == multiset(t)
    ensures Below(s, v) == Below(t, v) && AtMost(s, v) == AtMost(t, v)
    decreases |s|
  {
    if s == [] {
      assert |multiset(t)| == |t|;
    } else {
      hide Below, AtMost;
      var x := s[0];
      assert x in multiset(s);
      var i :| 0 <= i < |t| && t[i] == x;
      var a, b := s[..0] + s[1..], t[..i] + t[i + 1..];
      CountsWithout(s, 0, v);
      CountsWithout(t, i, v);
      CancelOne(multiset(a), multiset(b), x);
      CountsOfMultiset(a, b, v);
    }
  }

  lemma {:induction false} CountsOfBound(s: seq<real>, v: real)
    ensures (forall i :: 0 <= i < |s| ==> s[i] <= v) ==> AtMost(s, v) == |s|
    ensures (forall i :: 0 <= i < |s| ==> s[i] >= v) ==> Below(s, v) == 0
    ensures Below(s, v) <= AtMost(s, v) <= |s|
  {
    if s != [] {
      CountsOfBound(s[1..], v);
    }
  }

  /** An element with nothing larger before it and nothing smaller after it is in its place. */
  lemma InPlaceIsKth(s: seq<real>, k: nat)
    requires k < |s|
    requires (forall i :: 0 <= i < k ==> s[i] <= s[k]) && (forall i :: k < i < |s| ==> s[k] <= s[i])
    ensures IsKth(s, k, s[k])
  {
    var v := s[k];
    assert s == s[..k] + [v] + s[k + 1..];
    CountsConcat(s[..k] + [v], s[k + 1..], v);
    CountsConcat(s[..k], [v], v);
    CountsOfBound(s[..k], v);
    CountsOfBound(s[k + 1..], v);
  }

  // ----- the sorted form ----------------------------------------------------------------------

  predicate Ascending(s: seq<real>) {
    |s| < 2 || (s[0] <= s[1] && Ascending(s[1..]))
  }

  lemma {:induction false} AscendingOrder(s: seq<real>, i: nat, j: nat)
    requires Ascending(s) && i <= j < |s|
    ensures s[i] <= s[j]
  {
    if i > 0 {
      AscendingOrder(s[1..], i - 1, j - 1);
    } else if j > 0 {
      AscendingOrder(s[1..], 0, j - 1);
    }
  }

  function Insert(x: real, s: seq<real>): (r: seq<real>) {
    if s == [] || x <= s[0] then [x] + s else [s[0]] + Insert(x, s[1..])
  }

  function Sort(s: seq<real>): (r: seq<real>)
    ensures |r| == |s|
  {
    SortLength(s);
    if s == [] then [] else Insert(s[0], Sort(s[1..]))
  }

  lemma SortLength(s: seq<real>)
    ensures forall x, t :: |Insert(x, t)| == |t| + 1
  {
    forall x, t ensures |Insert(x, t)| == |t| + 1 {
      InsertLength(x, t);
    }
  }

  lemma {:induction false} InsertLength(x: real, s: seq<real>)
    ensures |Insert(x, s)| == |s| + 1
  {
    if s != [] {
      InsertLength(x, s[1..]);
    }
  }

  lemma {:induction false} InsertSorts(x: real, s: seq<real>)
    requires Ascending(s)
    ensures Ascending(Insert(x, s))
    ensures Insert(x, s) != [] && Insert(x, s)[0] == if s == [] || x <= s[0] then x else s[0]
  {
    if s != [] && x > s[0] {
      InsertSorts(x, s[1..]);
      assert Insert(x, s)[1..] == Insert(x, s[1..]);
    } else {
      assert Insert(x, s)[1..] == s;
    }
  }

  lemma {:induction false} InsertAdds(x: real, s: seq<real>)
    ensures multiset(Insert(x, s)) == multiset(s) + multiset{x}
  {
    if s != [] && x > s[0] {
      InsertAdds(x, s[1..]);
      assert s == [s[0]] + s[1..];
    }
  }

  lemma EmptyAscends()
    ensures Ascending([])
  {
  }

  /** The sorted form is in order and has the same elements. */
  lemma {:induction false} SortSorts(s: seq<real>)
    ensures Ascending(Sort(s)) && multiset(Sort(s)) == multiset(s)
  {
    hide Insert, Ascending;
    if s == [] {
      assert Ascending([]) by { EmptyAscends(); }
    } else {
      SortSorts(s[1..]);
      InsertSorts(s[0], Sort(s[1..]));
      InsertAdds(s[0], Sort(s[1..]));
      assert s == [s[0]] + s[1..];
    }
  }

  lemma SortedIsKth(s: seq<real>, k: nat)
    requires k < |s|
    ensures IsKth(s, k, Sort(s)[k])
  {
    hide Sort, Below, AtMost;
    SortSorts(s);
    var t := Sort(s);
    forall i | 0 <= i < |t| ensures (i < k ==> t[i] <= t[k]) && (k < i ==> t[k] <= t[i]) {
      AscendingOrder(t, if i < k then i else k, if i < k then k else i);
    }
    InPlaceIsKth(t, k);
    CountsOfMultiset(t, s, t[k]);
  }

  // ----- rearranging a range --------------------------------------------------------------------

  /** `t` is `s` with the elements from `l` up to `r` in some other order. */
  ghost predicate Rearranged(s: seq<real>, t: seq<real>, l: nat, r: nat) {
    && l <= r <= |s| == |t| && s[..l] == t[..l] && s[r..] == t[r..]
    && multiset(s[l..r]) == multiset(t[l..r])
  }

  lemma RearrangedSelf(s: seq<real>, l: nat, r: nat)
    requires l <= r <= |s|
    ensures Rearranged(s, s, l, r)
  {
  }

  lemma RearrangedTrans(s: seq<real>, t: seq<real>, u: seq<real>, l: nat, r: nat)
    requires Rearranged(s, t, l, r) && Rearranged(t, u, l, r)
    ensures Rearranged(s, u, l, r)
  {
  }

  lemma MultisetSwap(s: seq<real>, i: nat, j: nat)
    requires i <= j < |s|
    ensures multiset(s[i := s[j]][j := s[i]]) == multiset(s)
  {
    var u := s[i := s[j]];
    assert s[i] in multiset(s) && u[j] == s[j];
    assert multiset(u) == multiset(s) - multiset{s[i]} + multiset{s[j]};
    assert multiset(u[j := s[i]]) == multiset(u) - multiset{s[j]} + multiset{s[i]};
  }

  lemma SwapRearranges(s: seq<real>, i: nat, j: nat, l: nat, r: nat)
    requires l <= i <= j < r <= |s|
    ensures Rearranged(s, s[i := s[j]][j := s[i]], l, r)
  {
    var t, part := s[i := s[j]][j := s[i]], s[l..r];
    MultisetSwap(part, i - l, j - l);
    SameInside(s, i, j, l, r);
    assert t[..l] == s[..l];
    assert t[r..] == s[r..];
  }

  lemma SameInside(s: seq<real>, i: nat, j: nat, l: nat, r: nat)
    requires l <= i <= j < r <= |s|
    ensures var part := s[l..r]; s[i := s[j]][j := s[i]][l..r] == part[i - l := part[j - l]][j - l := part[i - l]]
  {
  }

  /** A rearrangement of a part is one of the whole. */
  lemma RearrangedWiden(s: seq<real>, t: seq<real>, l: nat, r: nat, l2: nat, r2: nat)
    requires Rearranged(s, t, l, r) && l2 <= l && r <= r2 <= |s|
    ensures Rearranged(s, t, l2, r2)
  {
    assert s[l2..r2] == s[..l][l2..] + s[l..r] + s[r..][..r2 - r];
    assert t[l2..r2] == t[..l][l2..] + t[l..r] + t[r..][..r2 - r];
    assert s[..l2] == s[..l][..l2] == t[..l][..l2] == t[..l2];
    assert s[r2..] == s[r..][r2 - r..] == t[r..][r2 - r..] == t[r2..];
  }

  lemma RearrangedFrom(s: seq<real>, t: seq<real>, l: nat, r: nat, x: nat)
    requires Rearranged(s, t, l, r) && l <= x < r
    ensures exists y :: l <= y < r && s[y] == t[x]
  {
    assert t[l..r][x - l] in multiset(t[l..r]);
    assert t[x] in multiset(s[l..r]);
    var z :| 0 <= z < r - l && s[l..r][z] == t[x];
    assert s[l + z] == t[x];
  }

  // ----- quickselect --------------------------------------------------------------------------------

  method Swap(a: array<real>, i: nat, j: nat, ghost l: nat, ghost r: nat)
    requires l <= i <= j < r <= a.Length
    modifies a
    ensures a[i] == old(a[j]) && a[j] == old(a[i])
    ensures forall x :: 0 <= x < a.Length && x != i && x != j ==> a[x] == old(a[x])
    ensures Rearranged(old(a[..]), a[..], l, r)
  {
    hide Rearranged;
    SwapRearranges(a[..], i, j, l, r);
    a[i], a[j] := a[j], a[i];
    assert a[..] == old(a[..])[i := old(a[j])][j := old(a[i])];
  }

  /** The scan from the left: the first element that is not below the pivot. */
  method ScanUp(a: array<real>, from: nat, pivot: real, ghost stop: nat) returns (i: nat)
    requires from <= stop < a.Length && a[stop] >= pivot
    ensures from <= i <= stop && a[i] >= pivot && forall x :: from <= x < i ==> a[x] < pivot
  {
    i := from;
    while a[i] < pivot
      decreases stop - i
      invariant from <= i <= stop && forall x :: from <= x < i ==> a[x] < pivot
    {
      i := i + 1;
    }
  }

  /** The scan from the right: the first element that is not above the pivot. */
  method ScanDown(a: array<real>, from: nat, pivot: real, ghost stop: nat) returns (j: nat)
    requires stop <= from < a.Length && a[stop] <= pivot
    ensures stop <= j <= from && a[j] <= pivot && forall x :: j < x <= from ==> a[x] > pivot
  {
    j := from;
    while a[j] > pivot
      decreases j - stop
      invariant stop <= j <= from && forall x :: j < x <= from ==> a[x] > pivot
    {
      j := j - 1;
    }
  }

  /**
   Everything left of `i` is at most the pivot, everything right of `j` at least; neither scan would go past its
   position.
   */
  ghost predicate Scanned(s: seq<real>, left: nat, right: nat, i: nat, j: nat, v: real) {
    && left <= i <= right && left <= j <= right < |s| && s[i] >= v && s[j] <= v
    && (forall x :: left <= x < i ==> s[x] <= v) && (forall x :: j < x <= right ==> v <= s[x])
  }

  /** One round: swap the two elements that are on the wrong sides, and scan on. */
  method SwapAndScan(a: array<real>, left: nat, right: nat, i0: nat, j0: nat, v: real) returns (i: nat, j: nat)
    requires right < a.Length && Scanned(a[..], left, right, i0, j0, v) && i0 < j0
    modifies a
    ensures Rearranged(old(a[..]), a[..], left, right + 1) && Scanned(a[..], left, right, i, j, v)
    ensures i0 < i && j < j0
  {
    hide Rearranged;
    Swap(a, i0, j0, left, right + 1);
    i := ScanUp(a, i0 + 1, v, j0);
    j := ScanDown(a, j0 - 1, v, i0);
  }

  /** The pivot is one of the range's elements, and what is left or right of `p` is on its side of it. */
  ghost predicate Parted(s: seq<real>, t: seq<real>, left: nat, right: nat, p: nat, pivot: real) {
    && left <= p < right < |s| == |t| && (exists x :: left <= x <= right && s[x] == pivot)
    && (forall x :: left <= x <= p ==> t[x] <= pivot) && (forall x :: p < x <= right ==> pivot <= t[x])
  }

  /**
   Hoare's partition splits the range in two non-empty parts around the pivot, and moves elements
   only within the range.
   */
  method HoarePartition(a: array<real>, left: nat, right: nat) returns (p: nat, ghost pivot: real)
    requires left < right < a.Length
    modifies a
    ensures left <= p < right && Rearranged(old(a[..]), a[..], left, right + 1)
    ensures Parted(old(a[..]), a[..], left, right, p, pivot)
  {
    hide Rearranged;
    var mid := left + (right - left) / 2;
    var v := a[mid];
    pivot := v;
    RearrangedSelf(a[..], left, right + 1);
    var i: nat := ScanUp(a, left, v, mid);
    var j: nat := ScanDown(a, right, v, mid);
    while i < j
      invariant Scanned(a[..], left, right, i, j, v) && (i < j || j < right)
      invariant Rearranged(old(a[..]), a[..], left, right + 1)
      decreases right + j - i
    {
      ghost var before := a[..];
      i, j := SwapAndScan(a, left, right, i, j, v);
      RearrangedTrans(old(a[..]), before, a[..], left, right + 1);
    }
    p := j;
    SplitAt(a[..], left, right, i, j, v);
  }

  lemma SplitAt(s: seq<real>, left: nat, right: nat, i: nat, j: nat, v: real)
    requires Scanned(s, left, right, i, j, v) && j <= i
    ensures (forall x :: left <= x <= j ==> s[x] <= v) && (forall x :: j < x <= right ==> v <= s[x])
  {
  }

  /** The k-th smallest of the range, found in place; only the range is rearranged. */
  method Quickselect(a: array<real>, first: nat, last: nat, k: nat) returns (r: real)
    requires first <= k <= last < a.Length
    modifies a
    ensures Rearranged(old(a[..]), a[..], first, last + 1)
    ensures IsKth(old(a[first..last + 1]), k - first, r) && r == Sort(old(a[first..last + 1]))[k - first]
  {
    hide Rearranged, IsKth, Sort, Confined, Parted;
    ghost var start := a[..];
    RearrangedSelf(start, first, last + 1);
    var left, right := first, last;
    ghost var lo, hi := 0.0, 0.0;
    Unconfined(start, first, last);
    while left < right
      invariant first <= left <= k <= right <= last
      invariant Rearranged(start, a[..], first, last + 1) && Confined(a[..], first, left, right, last, lo, hi)
      decreases right - left
    {
      ghost var before := a[..];
      ghost var pivot;
      var p;
      p, pivot := HoarePartition(a, left, right);
      RearrangedWiden(before, a[..], left, right + 1, first, last + 1);
      RearrangedTrans(start, before, a[..], first, last + 1);
      Narrowed(before, a[..], first, left, right, last, lo, hi, p, pivot);
      if k <= p {
        right, hi := p, pivot;
      } else {
        left, lo := p + 1, pivot;
      }
    }
    r := a[left];
    assert start[first..last + 1] == old(a[first..last + 1]);
    Finish(start, a[..], first, last, k, lo, hi);
  }

  /** The part from `left` to `right` lies between `lo` and `hi`, and what was set aside lies beyond them. */
  ghost predicate Confined(s: seq<real>, first: nat, left: nat, right: nat, last: nat, lo: real, hi: real) {
    && first <= left <= right <= last < |s|
    && (left > first ==>
          (forall x :: first <= x < left ==> s[x] <= lo) && (forall x :: left <= x <= right ==> lo <= s[x]))
    && (right < last ==>
          (forall x :: right < x <= last ==> hi <= s[x]) && (forall x :: left <= x <= right ==> s[x] <= hi))
  }

  lemma Unconfined(s: seq<real>, first: nat, last: nat)
    requires first <= last < |s|
    ensures Confined(s, first, first, last, last, 0.0, 0.0)
  {
  }

  /** After a partition either side is confined, with the pivot as the new bound. */
  lemma Narrowed(s: seq<real>, t: seq<real>, first: nat, left: nat, right: nat, last: nat, lo: real, hi: real,
      p: nat, pivot: real)
    requires Confined(s, first, left, right, last, lo, hi) && Rearranged(s, t, left, right + 1)
    requires Parted(s, t, left, right, p, pivot)
    ensures Confined(t, first, left, p, last, lo, pivot) && Confined(t, first, p + 1, right, last, pivot, hi)
  {
    OutsideSame(s, t, left, right + 1);
    BoundsKept(s, t, left, right + 1, left == first, lo, right == last, hi);
    RearrangedLength(s, t, left, right + 1);
    hide Rearranged;
  }

  lemma RearrangedLength(s: seq<real>, t: seq<real>, l: nat, r: nat)
    requires Rearranged(s, t, l, r)
    ensures |s| == |t|
  {
  }

  lemma OutsideSame(s: seq<real>, t: seq<real>, l: nat, r: nat)
    requires Rearranged(s, t, l, r)
    ensures forall x :: 0 <= x < l || r <= x < |s| ==> t[x] == s[x]
  {
    forall x | 0 <= x < l || r <= x < |s| ensures t[x] == s[x] {
      if x < l {
        assert s[..l][x] == t[..l][x];
      } else {
        assert s[r..][x - r] == t[r..][x - r];
      }
    }
  }

  lemma BoundsKept(s: seq<real>, t: seq<real>, l: nat, r: nat, noLo: bool, lo: real, noHi: bool, hi: real)
    requires Rearranged(s, t, l, r)
    requires noLo || forall x :: l <= x < r ==> lo <= s[x]
    requires noHi || forall x :: l <= x < r ==> s[x] <= hi
    ensures noLo || forall x :: l <= x < r ==> lo <= t[x]
    ensures noHi || forall x :: l <= x < r ==> t[x] <= hi
  {
    forall x | l <= x < r ensures (noLo || lo <= t[x]) && (noHi || t[x] <= hi) {
      RearrangedFrom(s, t, l, r, x);
    }
  }

  lemma Finish(start: seq<real>, s: seq<real>, first: nat, last: nat, k: nat, lo: real, hi: real)
    requires first <= k <= last < |s| && Rearranged(start, s, first, last + 1) && Confined(s, first, k, k, last, lo, hi)
    ensures |start| == |s| && IsKth(start[first..last + 1], k - first, s[k])
    ensures s[k] == Sort(start[first..last + 1])[k - first]
  {
    hide Sort, Below, AtMost;
    var part, was := s[first..last + 1], start[first..last + 1];
    InPlaceIsKth(part, k - first);
    CountsOfMultiset(part, was, s[k]);
    SortedIsKth(was, k - first);
    KthUnique(was, k - first, s[k], Sort(was)[k - first]);
  }

  // ----- percentiles ----------------------------------------------------------------------------------

  /** The part of `n` samples that `p` per cent stands for. */
  function Share(n: nat, p: real): (x: real) {
    p / 100.0 * n as real
  }

  function Ceil(x: real): (r: int)
    ensures r as real - 1.0 < x <= r as real
  {
    -((-x).Floor)
  }

  /** The rank of the nearest-rank percentile; percentiles outside 0..100 are clamped. */
  function RankIndex(n: nat, p: real): (k: nat)
    requires n > 0
    ensures k < n
  {
    var k := Ceil(Share(n, p)) - 1;
    var low := if k > 0 then k else 0;
    if n - 1 < low then n - 1 else low
  }

  function NearestRank(samples: seq<real>, p: real): (v: real) {
    if samples == [] then 0.0 else Sort(samples)[RankIndex(|samples|, p)]
  }

  /** What a percentile between 0 and 100 says: fewer than p% of the samples are smaller, at least p% are no larger. */
  lemma NearestRankMeaning(samples: seq<real>, p: real)
    requires samples != [] && 0.0 < p <= 100.0
    ensures var (v, share) := (NearestRank(samples, p), Share(|samples|, p));
            v in samples && Below(samples, v) as real < share <= AtMost(samples, v) as real
  {
    hide Sort, Below, AtMost, RankIndex, Ascending, Share;
    RankMeaning(|samples|, p);
    RankOfSample(samples, RankIndex(|samples|, p));
  }

  lemma RankOfSample(samples: seq<real>, k: nat)
    requires k < |samples|
    ensures var v := Sort(samples)[k];
            v in samples && Below(samples, v) as real <= k as real && k as real + 1.0 <= AtMost(samples, v) as real
  {
    hide Sort, Below, AtMost, Ascending;
    SortedIsKth(samples, k);
    SortSorts(samples);
    assert Sort(samples)[k] in multiset(Sort(samples));
  }

  lemma RankMeaning(n: nat, p: real)
    requires n > 0 && 0.0 < p <= 100.0
    ensures var (k, share) := (RankIndex(n, p), Share(n, p));
            k as real < share <= k as real + 1.0
  {
    ShareWithin(p / 100.0, n as real);
    RankOfShare(Share(n, p), n);
  }

  lemma RankOfShare(share: real, n: nat)
    requires 0.0 < share <= n as real
    ensures 1 <= Ceil(share) <= n
  {
  }

  lemma ShareWithin(f: real, n: real)
    requires 0.0 < f <= 1.0 && n >= 1.0
    ensures 0.0 < f * n <= n
  {
  }

  /** The in-place percentile. */
  method PercentileInPlace(a: array<real>, p: real) returns (r: real)
    modifies a
    ensures multiset(a[..]) == multiset(old(a[..])) && r == NearestRank(old(a[..]), p)
  {
    if a.Length == 0 {
      return 0.0;
    }
    var k := RankIndex(a.Length, p);
    assert a[0..a.Length] == a[..];
    r := Quickselect(a, 0, a.Length - 1, k);
    assert a[0..a.Length] == a[..];
  }

  /** One percentile by quickselect on a copy: the same value that sorting gives. */
  method PercentileQuick(samples: seq<real>, p: real) returns (r: real)
    ensures r == NearestRank(samples, p)
  {
    var a := new real[|samples|](i requires 0 <= i < |samples| => samples[i]);
    assert a[..] == samples;
    r := PercentileInPlace(a, p);
  }

  /** Several percentiles with one sort. */
  method PercentilesQuick(samples: seq<real>, ps: seq<real>) returns (out: seq<real>)
    ensures |out| == |ps| && forall i :: 0 <= i < |ps| ==> out[i] == NearestRank(samples, ps[i])
  {
    var n := |samples|;
    if n == 0 {
      return seq(|ps|, _ => 0.0);
    }
    var a := Sort(samples);
    out := [];
    var i := 0;
    while i < |ps|
      invariant 0 <= i <= |ps| && |out| == i && forall j :: 0 <= j < i ==> out[j] == NearestRank(samples, ps[j])
    {
      out := out + [a[RankIndex(n, ps[i])]];
      i := i + 1;
    }
  }
}
