/** The aggregation shared by the two alternative measurements: sort the
    per-URL rates ascending, take the upper median and scale it by 1.5 to
    stand in for a full-size transfer. */
module Median {
  import opened Models

  /** Heuristic factor applied to the median of the small alternative transfers. */
  const MedianCorrection: real := 1.5

  predicate SortedAscending(s: seq<real>) {
    forall i, j :: 0 <= i < j < |s| ==> s[i] <= s[j]
  }

  /** `x` put before the first element of `s` that is not below it. */
  function Insert(x: real, s: seq<real>): (r: seq<real>)
    ensures |r| == |s| + 1
    ensures r[0] == if |s| > 0 && s[0] < x then s[0] else x
    ensures multiset(r) == multiset(s) + multiset{x}
  {
    if |s| == 0 then [x]
    else if x <= s[0] then [x] + s
    else
      assert s == [s[0]] + s[1..];
      [s[0]] + Insert(x, s[1..])
  }

  /** Index of the first element of `s` that is not below `x` (|s| if none). */
  function FirstNotBelow(x: real, s: seq<real>): (k: nat)
    ensures k <= |s|
    ensures forall i :: 0 <= i < k ==> s[i] < x
    ensures k == |s| || x <= s[k]
  {
    if |s| == 0 || x <= s[0] then 0
    else
      var k := 1 + FirstNotBelow(x, s[1..]);
      assert forall i :: 1 <= i < k ==> s[i] == s[1..][i - 1];
      k
  }

  /** Putting back the head of `s` in front of a split of its tail. */
  lemma ReattachHead(s: seq<real>, x: real, k: nat)
    requires 0 < |s| && k < |s|
    ensures [s[0]] + (s[1..][..k] + [x] + s[1..][k..]) == s[..k + 1] + [x] + s[k + 1..]
  {
    assert s[..k + 1] == [s[0]] + s[1..][..k];
    assert s[k + 1..] == s[1..][k..];
  }

  /** `x` lands just before the first element of `s` that is not below it,
      with `s` otherwise untouched on either side. */
  lemma {:induction false} InsertPlacement(x: real, s: seq<real>)
    ensures Insert(x, s) == s[..FirstNotBelow(x, s)] + [x] + s[FirstNotBelow(x, s)..]
  {
    if |s| > 0 && s[0] < x {
      InsertPlacement(x, s[1..]);
      ReattachHead(s, x, FirstNotBelow(x, s[1..]));
    } else {
      assert s[..0] + [x] + s[0..] == [x] + s;
    }
  }

  /** Inserting into an ascending sequence keeps it ascending. */
  lemma {:induction false} InsertSorted(x: real, s: seq<real>)
    requires SortedAscending(s)
    ensures SortedAscending(Insert(x, s))
  {
    if |s| > 0 && s[0] < x {
      InsertSorted(x, s[1..]);
      var rest := Insert(x, s[1..]);
      assert Insert(x, s) == [s[0]] + rest;
      assert s[0] <= rest[0];
    }
  }

  /** Ascending order, as the sort of the float64 slice produces it. */
  function Sort(s: seq<real>): (r: seq<real>)
    ensures |r| == |s|
    ensures SortedAscending(r)
    ensures multiset(r) == multiset(s)
  {
    if |s| == 0 then []
    else
      assert s == s[..|s| - 1] + [s[|s| - 1]];
      InsertSorted(s[|s| - 1], Sort(s[..|s| - 1]));
      Insert(s[|s| - 1], Sort(s[..|s| - 1]))
  }

  /** Element at index n/2 of the sorted rates, times 1.5; `failure` when no
      rate was collected. */
  function ScaledMedian(speeds: seq<real>, failure: Error): (r: Result<real>)
    ensures r.Err? <==> |speeds| == 0
    ensures r.Err? ==> r.error == failure
  {
    if |speeds| == 0 then Err(failure)
    else Ok(Sort(speeds)[|speeds| / 2] * MedianCorrection)
  }

  /** The first element of an ascending sequence is its least element. */
  lemma HeadIsLeast(s: seq<real>, x: real)
    requires SortedAscending(s)
    requires x in multiset(s)
    ensures s[0] <= x
  {
    assert x in s;
  }

  /** There is only one ascending arrangement of a multiset, so the result
      does not depend on how the sort is carried out. */
  lemma {:induction false} SortedPermutationUnique(a: seq<real>, b: seq<real>)
    requires SortedAscending(a) && SortedAscending(b)
    requires multiset(a) == multiset(b)
    ensures a == b
  {
    assert |a| == |multiset(a)| == |multiset(b)| == |b|;
    if |a| > 0 {
      HeadIsLeast(b, a[0]);
      HeadIsLeast(a, b[0]);
      assert a[0] == b[0];
      assert a == [a[0]] + a[1..];
      assert b == [b[0]] + b[1..];
      assert multiset(a) == multiset{a[0]} + multiset(a[1..]);
      assert multiset(b) == multiset{a[0]} + multiset(b[1..]);
      assert multiset(a[1..]) == multiset(a) - multiset{a[0]};
      assert multiset(b[1..]) == multiset(b) - multiset{a[0]};
      SortedPermutationUnique(a[1..], b[1..]);
    }
  }

  /** The median is the middle element of every ascending arrangement of the rates. */
  lemma MedianOfAnySortedArrangement(speeds: seq<real>, failure: Error, t: seq<real>)
    requires |speeds| > 0
    requires SortedAscending(t) && multiset(t) == multiset(speeds)
    ensures |t| == |speeds|
    ensures ScaledMedian(speeds, failure) == Ok(t[|t| / 2] * MedianCorrection)
  {
    SortedPermutationUnique(Sort(speeds), t);
  }

  /** Cutting an ascending sequence at index m: everything before is no
      larger than t[m], everything after no smaller, and nothing is lost. */
  lemma SortedSplit(t: seq<real>, m: nat)
    requires SortedAscending(t) && m < |t|
    ensures multiset(t[..m]) + multiset{t[m]} + multiset(t[m + 1..]) == multiset(t)
    ensures forall i :: 0 <= i < m ==> t[i] <= t[m]
    ensures forall j :: m < j < |t| ==> t[m] <= t[j]
  {
    assert t == t[..m] + [t[m]] + t[m + 1..];
  }

  /** The reported rate is 1.5 times one of the measured rates, and that rate
      splits the others: |speeds|/2 of them are no larger and the remaining
      ones no smaller. */
  lemma MedianSplits(speeds: seq<real>, failure: Error)
    requires |speeds| > 0
    ensures ScaledMedian(speeds, failure).Ok?
    ensures var t := Sort(speeds); var m := |speeds| / 2;
      && ScaledMedian(speeds, failure).value == t[m] * MedianCorrection
      && t[m] in speeds
      && multiset(t[..m]) + multiset{t[m]} + multiset(t[m + 1..]) == multiset(speeds)
      && (forall i :: 0 <= i < m ==> t[i] <= t[m])
      && (forall j :: m < j < |t| ==> t[m] <= t[j])
  {
    var t := Sort(speeds);
    var m := |speeds| / 2;
    SortedSplit(t, m);
    assert t[m] in multiset(t);
  }

  /** The median lies between 1.5 times the smallest and 1.5 times the largest rate. */
  lemma MedianBetweenExtremes(speeds: seq<real>, failure: Error, lo: real, hi: real)
    requires forall i :: 0 <= i < |speeds| ==> lo <= speeds[i] <= hi
    requires |speeds| > 0
    ensures lo * MedianCorrection <= ScaledMedian(speeds, failure).value <= hi * MedianCorrection
  {
    MedianSplits(speeds, failure);
  }

  /** Two rates, 5 and 8: the index-1 element of the sorted pair is 8, so the result is 12. */
  lemma TwoRatesExample()
    ensures ScaledMedian([8.0, 5.0], AllAlternativeUploadsFailed) == Ok(12.0)
  {
    assert multiset([8.0, 5.0]) == multiset([5.0, 8.0]);
    MedianOfAnySortedArrangement([8.0, 5.0], AllAlternativeUploadsFailed, [5.0, 8.0]);
  }

  /** Rates 0.8, 0.4, 4.0 sort to 0.4, 0.8, 4.0; the middle one scaled is 1.2. */
  lemma ThreeRatesExample(speeds: seq<real>)
    requires speeds == [0.8, 0.4, 4.0]
    ensures ScaledMedian(speeds, AllAlternativeDownloadsFailed) == Ok(1.2)
  {
    assert multiset(speeds) == multiset([0.4, 0.8, 4.0]);
    MedianOfAnySortedArrangement(speeds, AllAlternativeDownloadsFailed, [0.4, 0.8, 4.0]);
  }
}
