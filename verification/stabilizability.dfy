/** The decision rule of the stabilizability test of a state-space pair
    (A, B). The eigen-decomposition of A and the rank of [lambda I - A | B]
    are numerical library calls; here they enter as inputs: the n eigenvalues
    of A, in the order the eigen-solver returns them, and a rank oracle. */
module Stabilizability {

  /** A complex number as a (real, imaginary) pair. */
  datatype Complex = Complex(re: real, im: real)

  function SquaredMagnitude(z: Complex): (m: real)
    ensures m >= 0.0
  {
    z.re * z.re + z.im * z.im
  }

  /** A mode strictly inside the unit circle is stable and needs no test.
      A mode on the circle is NOT skipped. */
  predicate IsSkipped(z: Complex) {
    SquaredMagnitude(z) < 1.0
  }

  /** The textbook definition: (A, B) is stabilizable when every eigenvalue on
      or outside the unit circle is controllable, that is the rank of
      [lambda I - A | B] is n. */
  ghost predicate IsStabilizablePair(n: nat, eigenvalues: seq<Complex>, rank: Complex -> nat) {
    forall i :: 0 <= i < |eigenvalues| && !IsSkipped(eigenvalues[i]) ==> rank(eigenvalues[i]) == n
  }

  /** The indices below hi, in increasing order, of the eigenvalues that the
      loop does not skip. */
  function RankTestedIndices(eigenvalues: seq<Complex>, hi: nat): (indices: seq<nat>)
    requires hi <= |eigenvalues|
    ensures forall j :: 0 <= j < |indices| ==> indices[j] < hi && !IsSkipped(eigenvalues[indices[j]])
    ensures forall i :: 0 <= i < hi && !IsSkipped(eigenvalues[i]) ==> i in indices
    decreases hi
  {
    if hi == 0 then []
    else if IsSkipped(eigenvalues[hi - 1]) then RankTestedIndices(eigenvalues, hi - 1)
    else RankTestedIndices(eigenvalues, hi - 1) + [hi - 1]
  }

  /** The loop of check_stabilizable. Besides the verdict it returns the
      indices of the eigenvalues whose rank was computed, in the order the
      rank decompositions were performed. */
  method CheckStabilizable(n: nat, eigenvalues: seq<Complex>, rank: Complex -> nat)
    returns (stabilizable: bool, rankTested: seq<nat>)
    requires |eigenvalues| == n
    ensures stabilizable <==> IsStabilizablePair(n, eigenvalues, rank)
    ensures stabilizable ==> rankTested == RankTestedIndices(eigenvalues, n)
    ensures !stabilizable ==>
              && |rankTested| > 0
              && var last := rankTested[|rankTested| - 1];
              && last < n
              && rank(eigenvalues[last]) != n
              && rankTested == RankTestedIndices(eigenvalues, last + 1)
    ensures forall j :: 0 <= j < |rankTested| - 1 ==> rank(eigenvalues[rankTested[j]]) == n
  {
    rankTested := [];
    var i := 0;
    while i < n
      invariant 0 <= i <= n
      invariant rankTested == RankTestedIndices(eigenvalues, i)
      invariant forall k :: 0 <= k < i && !IsSkipped(eigenvalues[k]) ==> rank(eigenvalues[k]) == n
    {
      var lambda := eigenvalues[i];
      if SquaredMagnitude(lambda) < 1.0 {
        i := i + 1;
        continue;
      }
      TestedRanksAreFull(n, eigenvalues, rank, i);
      rankTested := rankTested + [i];
      if rank(lambda) != n {
        assert !IsStabilizablePair(n, eigenvalues, rank);
        return false, rankTested;
      }
      i := i + 1;
    }
    TestedRanksAreFull(n, eigenvalues, rank, n);
    return true, rankTested;
  }

  /** Every eigenvalue rank-tested below hi passed its test when all the
      unskipped eigenvalues below hi did. */
  lemma TestedRanksAreFull(n: nat, eigenvalues: seq<Complex>, rank: Complex -> nat, hi: nat)
    requires hi <= |eigenvalues|
    requires forall k :: 0 <= k < hi && !IsSkipped(eigenvalues[k]) ==> rank(eigenvalues[k]) == n
    ensures forall j :: 0 <= j < |RankTestedIndices(eigenvalues, hi)| ==>
              rank(eigenvalues[RankTestedIndices(eigenvalues, hi)[j]]) == n
  {
  }

  /** The rank decompositions are performed in increasing eigenvalue order,
      each at most once. */
  lemma {:induction false} RankTestedIndicesIncrease(eigenvalues: seq<Complex>, hi: nat)
    requires hi <= |eigenvalues|
    ensures forall j :: 0 < j < |RankTestedIndices(eigenvalues, hi)| ==>
              RankTestedIndices(eigenvalues, hi)[j - 1] < RankTestedIndices(eigenvalues, hi)[j]
  {
    if hi > 0 {
      RankTestedIndicesIncrease(eigenvalues, hi - 1);
    }
  }

  /** An eigenvalue exactly on the unit circle is rank-tested. */
  lemma {:induction false} UnitCircleEigenvalueIsTested(eigenvalues: seq<Complex>, i: nat)
    requires i < |eigenvalues|
    requires SquaredMagnitude(eigenvalues[i]) == 1.0
    ensures i in RankTestedIndices(eigenvalues, |eigenvalues|)
  {
  }

  /** A matrix whose eigenvalues all lie strictly inside the unit circle is
      stabilizable with any input matrix. */
  lemma StableMatrixIsStabilizable(n: nat, eigenvalues: seq<Complex>, rank: Complex -> nat)
    requires forall i :: 0 <= i < |eigenvalues| ==> IsSkipped(eigenvalues[i])
    ensures IsStabilizablePair(n, eigenvalues, rank)
    ensures RankTestedIndices(eigenvalues, |eigenvalues|) == []
  {
    NothingTestedBelow(eigenvalues, |eigenvalues|);
  }

  lemma {:induction false} NothingTestedBelow(eigenvalues: seq<Complex>, hi: nat)
    requires hi <= |eigenvalues|
    requires forall i :: 0 <= i < hi ==> IsSkipped(eigenvalues[i])
    ensures RankTestedIndices(eigenvalues, hi) == []
  {
    if hi > 0 {
      NothingTestedBelow(eigenvalues, hi - 1);
    }
  }

  /** One uncontrollable mode on or outside the unit circle makes the pair
      unstabilizable, whatever the other modes are. */
  lemma UncontrollableUnstableModeIsNotStabilizable(n: nat, eigenvalues: seq<Complex>, rank: Complex -> nat, i: nat)
    requires i < |eigenvalues|
    requires SquaredMagnitude(eigenvalues[i]) >= 1.0
    requires rank(eigenvalues[i]) != n
    ensures !IsStabilizablePair(n, eigenvalues, rank)
  {
  }
}
