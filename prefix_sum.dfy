/** Sums and the exclusive prefix sum that the scan engine promises to compute. */
module PrefixSum {

  /** The sum of a sequence of integers, accumulated from the left.
      Integers are mathematical: fixed-width wrap-around is not modelled. */
  function Sum(s: seq<int>): int
  {
    if |s| == 0 then 0 else Sum(s[..|s| - 1]) + s[|s| - 1]
  }

  /** Summing a concatenation is summing its parts. */
  lemma {:induction false} SumAppend(a: seq<int>, b: seq<int>)
    ensures Sum(a + b) == Sum(a) + Sum(b)
  {
    if |b| == 0 {
      assert a + b == a;
    } else {
      assert (a + b)[..|a + b| - 1] == a + b[..|b| - 1];
      SumAppend(a, b[..|b| - 1]);
    }
  }

  /** Extending a slice by one element adds that element to its sum. */
  lemma SumExtend(s: seq<int>, lo: int, hi: int)
    requires 0 <= lo <= hi < |s|
    ensures Sum(s[lo..hi + 1]) == Sum(s[lo..hi]) + s[hi]
  {
    assert s[lo..hi + 1][..hi - lo] == s[lo..hi];
  }

  /** Splitting a slice at a middle point splits its sum. */
  lemma SumSplit(s: seq<int>, lo: int, mid: int, hi: int)
    requires 0 <= lo <= mid <= hi <= |s|
    ensures Sum(s[lo..hi]) == Sum(s[lo..mid]) + Sum(s[mid..hi])
  {
    assert s[lo..hi] == s[lo..mid] + s[mid..hi];
    SumAppend(s[lo..mid], s[mid..hi]);
  }

  /** The exclusive prefix sum: entry j is the sum of the entries strictly before j. */
  function ExclusivePrefixSum(s: seq<int>): (r: seq<int>)
    ensures |r| == |s|
  {
    seq(|s|, j requires 0 <= j < |s| => Sum(s[..j]))
  }

  /** The recurrence a sequential exclusive scan follows: it starts at 0 and
      each entry is the previous entry plus the previous input. */
  lemma ExclusivePrefixSumRecurrence(s: seq<int>, i: int)
    requires 0 <= i < |s|
    ensures ExclusivePrefixSum(s)[0] == 0
    ensures i > 0 ==> ExclusivePrefixSum(s)[i] == ExclusivePrefixSum(s)[i - 1] + s[i - 1]
  {
    if i > 0 {
      SumExtend(s, 0, i - 1);
      assert s[0..i] == s[..i] && s[0..i - 1] == s[..i - 1];
    }
  }

  /** The sequence the recurrence produces is the exclusive prefix sum, and no other. */
  lemma {:induction false} RecurrenceDeterminesScan(s: seq<int>, r: seq<int>)
    requires |r| == |s|
    requires |s| > 0 ==> r[0] == 0
    requires forall i :: 0 < i < |s| ==> r[i] == r[i - 1] + s[i - 1]
    ensures r == ExclusivePrefixSum(s)
  {
    var e := ExclusivePrefixSum(s);
    var k := 0;
    while k < |s|
      invariant 0 <= k <= |s|
      invariant forall j :: 0 <= j < k ==> r[j] == e[j]
    {
      ExclusivePrefixSumRecurrence(s, k);
      k := k + 1;
    }
  }
}
