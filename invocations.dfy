/** The records layers build their GPU work from (Source/Invocation.swift) and the
    builder that creates them (Source/InvocationBuilder.swift), without a device:
    creating a buffer hands out a fresh serial number, creating an invocation
    returns a record of its arguments. */
module Invocations {
  import opened Outcomes

  const FloatSize := 4
  const UInt16Max := 65535

  /** Where a buffer comes from: one the builder created, or one of the buffers the
      network hands the layer through the builder. */
  datatype Origin = Created(serial: nat) | LayerInput | LayerOutput | LayerInputDeltas | LayerOutputDeltas

  /** `Buffer`: a name and a size in bytes. Two buffers are the same GPU buffer when they have the same origin. */
  datatype Buffer = Buffer(origin: Origin, name: string, size: int)

  /** `Parameters`: the kernel constants, each converted with `UInt16(...)`. */
  datatype Parameters = Parameters(batchSize: nat, unitCount: nat, inputSize: nat, clipTo: real)

  /** The non-buffer arguments of an invocation. */
  datatype Value = Params(p: Parameters) | Time(t: nat)

  /** `Invocation`: the kernel's name, its buffer and value arguments and its grid. */
  datatype Invocation = Invocation(
    functionName: string,
    buffers: seq<Buffer>,
    values: seq<Value>,
    width: int,
    height: int,
    depth: int)

  const ConversionReason := "Not enough bits to represent the passed value"

  /** `UInt16(x)` traps unless `x` is in 0...65535. */
  predicate FitsUInt16(x: int) {
    0 <= x <= UInt16Max
  }

  /** `Parameters(batchSize: UInt16(batchSize), unitCount: UInt16(unitCount), inputSize: UInt16(inputSize), clipTo: clipTo)`. */
  function MakeParameters(batchSize: int, unitCount: int, inputSize: int, clipTo: real): (r: Result<Parameters>)
    ensures r.Ok? <==> FitsUInt16(batchSize) && FitsUInt16(unitCount) && FitsUInt16(inputSize)
    ensures r.Ok? ==> r.value.batchSize == batchSize && r.value.unitCount == unitCount
                      && r.value.inputSize == inputSize && r.value.clipTo == clipTo
    ensures r.Fatal? ==> r.reason == ConversionReason
  {
    if FitsUInt16(batchSize) && FitsUInt16(unitCount) && FitsUInt16(inputSize) then
      Ok(Parameters(batchSize, unitCount, inputSize, clipTo))
    else
      Fatal(ConversionReason)
  }

  /** The decimal digits of `n`, as string interpolation writes it. */
  function Decimal(n: nat): (s: string)
    ensures |s| >= 1
    ensures forall i | 0 <= i < |s| :: '0' <= s[i] <= '9'
  {
    if n < 10 then ["0123456789"[n]] else Decimal(n / 10) + ["0123456789"[n % 10]]
  }

  /** Distinct digits have distinct characters. */
  lemma DigitInjective(i: nat, j: nat)
    requires i < 10 && j < 10 && "0123456789"[i] == "0123456789"[j]
    ensures i == j
  {
    assert forall k | 0 <= k < 10 :: "0123456789"[k] as int == 48 + k;
  }

  /** A number has a single digit exactly when it is below 10. */
  lemma {:induction false} DecimalLength(n: nat)
    ensures |Decimal(n)| >= 1
    ensures n >= 10 <==> |Decimal(n)| >= 2
  {
    if n >= 10 {
      DecimalLength(n / 10);
    }
  }

  /** Different numbers have different decimal strings, so `"state\(t)"` names differ across time steps. */
  lemma {:induction false} DecimalInjective(m: nat, n: nat)
    requires Decimal(m) == Decimal(n)
    ensures m == n
    decreases m
  {
    DecimalLength(m);
    DecimalLength(n);
    if m >= 10 && n >= 10 {
      var a, b := Decimal(m / 10), Decimal(n / 10);
      assert a == Decimal(m)[..|Decimal(m)| - 1];
      assert b == Decimal(n)[..|Decimal(n)| - 1];
      DecimalInjective(m / 10, n / 10);
      assert Decimal(m)[|a|] == "0123456789"[m % 10] && Decimal(n)[|b|] == "0123456789"[n % 10];
      DigitInjective(m % 10, n % 10);
    } else if m < 10 && n < 10 {
      assert Decimal(m)[0] == "0123456789"[m] && Decimal(n)[0] == "0123456789"[n];
      DigitInjective(m, n);
    }
  }

  /** `createInvocation`: the record of the arguments. */
  function CreateInvocation(functionName: string, buffers: seq<Buffer>, values: seq<Value>, width: int, height: int, depth: int): (r: Invocation)
    ensures r.functionName == functionName && r.buffers == buffers && r.values == values
    ensures r.width == width && r.height == height && r.depth == depth
  {
    Invocation(functionName, buffers, values, width, height, depth)
  }

  /** A buffer created with serial number below `bound`. */
  predicate CreatedBelow(b: Buffer, bound: nat) {
    b.origin.Created? && b.origin.serial < bound
  }

  /** A buffer created at or after serial number `from`: one no earlier holder of a buffer can have. */
  predicate CreatedSince(b: Buffer, from: nat, bound: nat) {
    b.origin.Created? && from <= b.origin.serial < bound
  }

  /** A buffer created from serial number `from` on, with the given name and byte size. */
  predicate CreatedAs(b: Buffer, name: string, size: int, from: nat, bound: nat) {
    CreatedSince(b, from, bound) && b.name == name && b.size == size
  }

  /** The builder of one layer: the network's buffers for that layer, and the counter
      that makes every created buffer a new one. A forward builder uses the input and
      output buffers, a backward builder the input, output-deltas and input-deltas buffers. */
  class InvocationBuilder {
    var nextSerial: nat
    const inputBuffer: Buffer
    const outputBuffer: Buffer
    const inputDeltasBuffer: Buffer
    const outputDeltasBuffer: Buffer

    constructor(nextSerial: nat, inputSize: int, outputSize: int)
      ensures this.nextSerial == nextSerial
      ensures inputBuffer == Buffer(LayerInput, "input", inputSize)
      ensures outputBuffer == Buffer(LayerOutput, "output", outputSize)
      ensures inputDeltasBuffer == Buffer(LayerInputDeltas, "input deltas", inputSize)
      ensures outputDeltasBuffer == Buffer(LayerOutputDeltas, "output deltas", outputSize)
    {
      this.nextSerial := nextSerial;
      inputBuffer := Buffer(LayerInput, "input", inputSize);
      outputBuffer := Buffer(LayerOutput, "output", outputSize);
      inputDeltasBuffer := Buffer(LayerInputDeltas, "input deltas", inputSize);
      outputDeltasBuffer := Buffer(LayerOutputDeltas, "output deltas", outputSize);
    }

    /** `createBuffer(name:size:)`: a new buffer, distinct from every buffer created before. */
    method CreateBuffer(name: string, size: int) returns (b: Buffer)
      modifies this`nextSerial
      ensures b == Buffer(Created(old(nextSerial)), name, size)
      ensures nextSerial == old(nextSerial) + 1
    {
      b := Buffer(Created(nextSerial), name, size);
      nextSerial := nextSerial + 1;
    }

    /** `createBuffer(name:elements:)`: a new buffer sized for `count` floats. The
        element values are copied by the device and are not modelled. */
    method CreateBufferWithElements(name: string, count: nat) returns (b: Buffer)
      modifies this`nextSerial
      ensures b == Buffer(Created(old(nextSerial)), name, count * FloatSize)
      ensures nextSerial == old(nextSerial) + 1
    {
      b := CreateBuffer(name, count * FloatSize);
    }

    /** The `for time in 0..<count` loops that fill a per-time-step list: buffer `t`
        is named `prefix` followed by `t`, and all of them are new. */
    method CreateSeries(prefix: string, size: int, count: nat) returns (bs: seq<Buffer>)
      modifies this`nextSerial
      ensures nextSerial == old(nextSerial) + count
      ensures |bs| == count
      ensures forall t | 0 <= t < count :: bs[t] == Buffer(Created(old(nextSerial) + t), prefix + Decimal(t), size)
    {
      bs := [];
      for t := 0 to count
        invariant nextSerial == old(nextSerial) + t
        invariant |bs| == t
        invariant forall u | 0 <= u < t :: bs[u] == Buffer(Created(old(nextSerial) + u), prefix + Decimal(u), size)
      {
        var b := CreateBuffer(prefix + Decimal(t), size);
        bs := bs + [b];
      }
    }
  }

  /** The buffers of a series are pairwise distinct, and distinct from anything created before it. */
  lemma SeriesDistinct(bs: seq<Buffer>, from: nat, prefix: string, size: int)
    requires forall t | 0 <= t < |bs| :: bs[t] == Buffer(Created(from + t), prefix + Decimal(t), size)
    ensures forall t, u | 0 <= t < u < |bs| :: bs[t] != bs[u]
    ensures forall t | 0 <= t < |bs| :: CreatedSince(bs[t], from, from + |bs|)
  {
  }
}
