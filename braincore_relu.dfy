/** The single-row matrix variant of the rectified linear unit
    (BrainCore/Layers/ReLULayer.swift), sharing the rule of `ReLU.Rectify`. */
module BrainCoreReLU {
  import opened ReLU

  /** Row `r` of a matrix, left to right. */
  function Row(m: array2<real>, r: nat): (s: seq<real>)
    requires r < m.Length0
    reads m
    ensures |s| == m.Length1
    ensures forall i | 0 <= i < m.Length1 :: s[i] == m[r, i]
  {
    seq(m.Length1, i requires 0 <= i < m.Length1 reads m => m[r, i])
  }

  class ReLULayer {
    var negativeSlope: real

    /** The slope starts at 0. */
    constructor()
      ensures negativeSlope == 0.0
    {
      negativeSlope := 0.0;
    }

    /** `forward`: both matrices are one row with the same number of columns; every
        column of the output row is written once, with the rectified input. */
    method Forward(input: array2<real>, output: array2<real>)
      requires input.Length0 == 1 && output.Length0 == 1
      requires input.Length1 == output.Length1
      modifies output
      ensures Row(output, 0) == Rectified(old(Row(input, 0)), negativeSlope)
    {
      ghost var source := Row(input, 0);
      var n := input.Length1;
      for i := 0 to n
        invariant forall j | i <= j < n :: input[0, j] == source[j]
        invariant forall j | 0 <= j < i :: output[0, j] == Rectify(source[j], negativeSlope)
      {
        output[0, i] := Max(input[0, i], 0.0) + negativeSlope * Min(input[0, i], 0.0);
      }
      ghost var expected := Rectified(source, negativeSlope);
      assert forall j | 0 <= j < n :: Row(output, 0)[j] == expected[j];
    }
  }
}
