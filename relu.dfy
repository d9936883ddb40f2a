/** The rectified linear unit of Source/Layers/ReLULayer.swift: an element-wise
    forward pass with a leak `negativeSlope` for negative inputs, and the matching
    backward pass. Doubles are modelled as reals. */
module ReLU {

  function Max(a: real, b: real): real { if a >= b then a else b }
  function Min(a: real, b: real): real { if a <= b then a else b }

  /** `max(x, 0) + negativeSlope * min(x, 0)`: the identity on non-negative inputs, the slope times the input below zero. */
  function Rectify(x: real, slope: real): (y: real)
    ensures x >= 0.0 ==> y == x
    ensures x < 0.0 ==> y == slope * x
  {
    Max(x, 0.0) + slope * Min(x, 0.0)
  }

  /** The derivative the backward pass uses: 1 for a positive input, the slope otherwise (also at 0). */
  function Factor(x: real, slope: real): (f: real)
    ensures x > 0.0 ==> f == 1.0
    ensures x <= 0.0 ==> f == slope
  {
    if x > 0.0 then 1.0 else slope
  }

  /** The forward pass on a whole blob. */
  function Rectified(input: seq<real>, slope: real): (r: seq<real>)
    ensures |r| == |input|
  {
    seq(|input|, i requires 0 <= i < |input| => Rectify(input[i], slope))
  }

  /** The backward pass on the first `n` entries. */
  function Backpropagated(outputDiff: seq<real>, input: seq<real>, slope: real, n: nat): (r: seq<real>)
    requires n <= |outputDiff| && n <= |input|
    ensures |r| == n
  {
    seq(n, i requires 0 <= i < n => outputDiff[i] * Factor(input[i], slope))
  }

  /** With the default slope 0 the forward pass clamps: every output is non-negative,
      non-negative inputs pass through and negative inputs become 0. */
  lemma RectifiedDefaultSlope(input: seq<real>)
    ensures forall i | 0 <= i < |input| :: Rectified(input, 0.0)[i] >= 0.0
    ensures forall i | 0 <= i < |input| && input[i] >= 0.0 :: Rectified(input, 0.0)[i] == input[i]
    ensures forall i | 0 <= i < |input| && input[i] < 0.0 :: Rectified(input, 0.0)[i] == 0.0
  {
  }

  /** With a non-negative slope the forward pass never raises a value and never changes its sign. */
  lemma RectifiedBelowInput(input: seq<real>, slope: real)
    requires 0.0 <= slope <= 1.0
    ensures forall i | 0 <= i < |input| :: input[i] * Rectified(input, slope)[i] >= 0.0
    ensures forall i | 0 <= i < |input| :: Rectified(input, slope)[i] <= Max(input[i], 0.0)
  {
    forall i | 0 <= i < |input|
      ensures input[i] * Rectified(input, slope)[i] >= 0.0
      ensures Rectified(input, slope)[i] <= Max(input[i], 0.0)
    {
      var x := input[i];
      if x < 0.0 {
        assert Rectified(input, slope)[i] == slope * x;
        assert x * (slope * x) == slope * (x * x);
        assert x * x > 0.0;
      }
    }
  }

  /** When every input is positive, the backward pass hands the output gradient back unchanged. */
  lemma BackpropagatedPositiveCopies(outputDiff: seq<real>, input: seq<real>, slope: real)
    requires |outputDiff| == |input|
    requires forall i | 0 <= i < |input| :: input[i] > 0.0
    ensures Backpropagated(outputDiff, input, slope, |input|) == outputDiff
  {
  }

  /** A non-positive input with the default slope stops the gradient. */
  lemma BackpropagatedDefaultSlopeStops(outputDiff: seq<real>, input: seq<real>, i: nat)
    requires |outputDiff| == |input| && i < |input| && input[i] <= 0.0
    ensures Backpropagated(outputDiff, input, 0.0, |input|)[i] == 0.0
  {
  }

  class ReLULayer {
    var negativeSlope: real
    const outputSize: int

    /** `init(size:)`: the slope starts at 0. */
    constructor(size: int)
      ensures outputSize == size && negativeSlope == 0.0
    {
      outputSize := size;
      negativeSlope := 0.0;
    }

    /** `forward`: both blobs hold `outputSize` values; each output is the rectified input. */
    method Forward(input: array<real>, output: array<real>)
      requires input.Length == outputSize && output.Length == outputSize
      modifies output
      ensures output[..] == Rectified(old(input[..]), negativeSlope)
    {
      ghost var source := input[..];
      for i := 0 to input.Length
        invariant input[i..] == source[i..]
        invariant forall j | 0 <= j < i :: output[j] == Rectify(source[j], negativeSlope)
      {
        output[i] := Max(input[i], 0.0) + negativeSlope * Min(input[i], 0.0);
      }
    }

    /** `backward`: one gradient per entry of `inputDiff`; an input or output gradient
        shorter than that is an out-of-range subscript, reported as `ok == false`. */
    method Backward(outputDiff: array<real>, input: array<real>, inputDiff: array<real>) returns (ok: bool)
      modifies inputDiff
      ensures ok <==> inputDiff.Length <= outputDiff.Length && inputDiff.Length <= input.Length
      ensures ok ==> inputDiff[..] == Backpropagated(old(outputDiff[..]), old(input[..]), negativeSlope, inputDiff.Length)
      ensures !ok ==> inputDiff[..] == old(inputDiff[..])
    {
      var n := inputDiff.Length;
      if outputDiff.Length < n || input.Length < n {
        return false;
      }
      ghost var gradient, source := outputDiff[..], input[..];
      for i := 0 to n
        invariant forall j | i <= j < n :: outputDiff[j] == gradient[j] && input[j] == source[j]
        invariant forall j | 0 <= j < i :: inputDiff[j] == gradient[j] * Factor(source[j], negativeSlope)
      {
        var factor := if input[i] > 0.0 then 1.0 else negativeSlope;
        inputDiff[i] := outputDiff[i] * factor;
      }
      ghost var expected := Backpropagated(gradient, source, negativeSlope, n);
      assert forall j | 0 <= j < n :: inputDiff[j] == expected[j];
      assert inputDiff[..] == expected;
      ok := true;
    }
  }
}
