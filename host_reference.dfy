/** The host reference loop of the scan test program, and the cumulative loop
    it evidently stands for. */
module HostReference {
  import opened PrefixSum

  /** What `ScanHost` leaves in its copy of `output`: entry 0 becomes 0, each
      entry i from 1 below |input| becomes input[i] + input[i - 1], and the
      remaining entries keep their value. */
  function PairwiseSums(input: seq<int>, output: seq<int>): (r: seq<int>)
    requires 0 < |output| && |input| <= |output|
    ensures |r| == |output|
  {
    seq(|output|, i requires 0 <= i < |output| =>
      if i == 0 then 0 else if i < |input| then input[i] + input[i - 1] else output[i])
  }

  /** `ScanHost(input, output)`. `output` is taken by value: the method works on
      a local copy, which it returns as `local`, and the caller's vector is
      never written. Bounds-checked writes throw (`thrown`) when `output` is
      empty or shorter than `input`; the reads of `input` never throw. */
  method ScanHost(input: seq<int>, output: seq<int>) returns (thrown: bool, local: seq<int>)
    ensures thrown <==> |output| == 0 || |output| < |input|
    ensures !thrown ==> local == PairwiseSums(input, output)
  {
    var copy := new int[|output|](j requires 0 <= j < |output| => output[j]);
    if copy.Length == 0 {
      return true, [];
    }
    copy[0] := 0;
    var i := 1;
    while i < |input|
      invariant 1 <= i <= copy.Length && (i <= |input| || i == 1)
      invariant copy[0] == 0
      invariant forall k :: 0 < k < i && k < |input| ==> copy[k] == input[k] + input[k - 1]
      invariant forall k :: i <= k < copy.Length ==> copy[k] == output[k]
    {
      if i >= copy.Length {
        return true, copy[..];
      }
      copy[i] := input[i] + input[i - 1];
      i := i + 1;
    }
    thrown, local := false, copy[..];
    assert local == PairwiseSums(input, output);
  }

  /** `ScanHost` does not compute the exclusive scan: on [3,1,4] it gives
      [0,4,5] where the exclusive scan is [0,3,4]. */
  lemma ScanHostIsNotExclusiveScan()
    ensures PairwiseSums([3, 1, 4], [0, 0, 0]) == [0, 4, 5]
    ensures ExclusivePrefixSum([3, 1, 4]) == [0, 3, 4]
  {
    assert [3, 1, 4][..0] == [] && [3, 1, 4][..1] == [3] && [3, 1, 4][..2] == [3, 1];
    assert [3, 1][..1] == [3] && [3][..0] == [];
  }

  /** Already at index 1 the two disagree unless input[1] is 0. */
  lemma PairwiseAgreesAtOneOnlyOnZero(input: seq<int>, output: seq<int>)
    requires 2 <= |input| <= |output|
    ensures PairwiseSums(input, output)[1] == ExclusivePrefixSum(input)[1] <==> input[1] == 0
  {
    assert input[..1][..0] == [];
    assert Sum(input[..1]) == input[0];
  }

  /** The old contents of `output` matter only where the loop does not write:
      index 0 and the indexes below |input| come out the same for any two
      vectors `output` of sufficient length. */
  lemma PairwiseIgnoresWrittenEntries(input: seq<int>, o1: seq<int>, o2: seq<int>, i: int)
    requires 0 < |o1| && |input| <= |o1| && 0 < |o2| && |input| <= |o2|
    requires 0 <= i && (i == 0 || i < |input|)
    ensures PairwiseSums(input, o1)[i] == PairwiseSums(input, o2)[i]
  {
  }

  /** The loop as evidently intended: each entry is the previous entry plus
      the previous input, which is the exclusive prefix sum. The result is
      returned rather than written to a copy. */
  method ScanHostCumulative(input: seq<int>) returns (output: seq<int>)
    ensures output == ExclusivePrefixSum(input)
  {
    var out := new int[|input|];
    if out.Length > 0 {
      out[0] := 0;
    }
    var i := 1;
    while i < |input|
      invariant 1 <= i && (i <= |input| || |input| == 0)
      invariant |input| > 0 ==> out[0] == 0
      invariant forall k :: 0 < k < i && k < |input| ==> out[k] == out[k - 1] + input[k - 1]
    {
      out[i] := out[i - 1] + input[i - 1];
      i := i + 1;
    }
    output := out[..];
    RecurrenceDeterminesScan(input, output);
  }
}
