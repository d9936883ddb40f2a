/** The LSTM layer unrolled over `timeSteps` (Source/Layers/LSTMLayer.swift): sizes
    derived from the parameters, per-time-step buffer lists created once, invocation
    lists built in time order for the forward pass and in reverse time order for the
    backward pass, and the counter `T` that hands them out one time step per read. */
module LSTM {
  import opened Outcomes
  import opened Invocations

  const ForwardInitReason := "initializeForward needs to be called first"
  const BackwardInitReason := "initializeBackward needs to be called first"
  const IndexReason := "Index out of range"
  const RangeReason := "Range requires lowerBound <= upperBound"

  /** The step before `t` on a ring of `n` steps: `t - 1`, or `n - 1` before step 0. */
  function PreviousTimeStep(t: int, n: int): (r: int)
    ensures 0 <= t < n ==> 0 <= r < n && (r + 1) % n == t
  {
    if t - 1 >= 0 then t - 1 else n - 1
  }

  /** The step after `t`: `t + 1`, or 0 after the last step. */
  function NextTimeStep(t: int, n: int): (r: int)
    ensures 0 <= t < n ==> 0 <= r < n && r == (t + 1) % n
  {
    if t + 1 < n then t + 1 else 0
  }

  /** Both neighbours of a step stay on the ring, going forward then back (or back then
      forward) returns to the step, and the next step is the one `T` advances to. */
  lemma TimeStepRing(t: int, n: int)
    requires 0 <= t < n
    ensures 0 <= PreviousTimeStep(t, n) < n && 0 <= NextTimeStep(t, n) < n
    ensures PreviousTimeStep(NextTimeStep(t, n), n) == t
    ensures NextTimeStep(PreviousTimeStep(t, n), n) == t
    ensures NextTimeStep(t, n) == (t + 1) % n
  {
  }

  /** The forward invocation of step `t`: it reads the state the previous step wrote and writes state `t`. */
  function ForwardInvocationAt(input: Buffer, output: Buffer, weights: Buffer, biases: Buffer,
                               activations: seq<Buffer>, states: seq<Buffer>, p: Parameters, t: int): (r: Invocation)
    requires 0 <= t < |activations| && |activations| == |states|
    ensures |r.buffers| == 7
  {
    CreateInvocation("lstm_forward",
      [input, weights, biases, output, activations[t], states[PreviousTimeStep(t, |states|)], states[t]],
      [Params(p)], p.unitCount, p.batchSize, 1)
  }

  /** The `lstm_backward_activations` invocation of step `t`. */
  function BackwardActivationsAt(outputDeltas: Buffer, weights: Buffer, activations: seq<Buffer>, activationDeltas: seq<Buffer>,
                                 states: seq<Buffer>, stateDeltas: seq<Buffer>, p: Parameters, t: int): (r: Invocation)
    requires 0 <= t < |states|
    requires |activations| == |activationDeltas| == |stateDeltas| == |states|
    ensures |r.buffers| == 10
  {
    var n := |states|;
    CreateInvocation("lstm_backward_activations",
      [outputDeltas, weights,
       activations[t], activations[NextTimeStep(t, n)],
       activationDeltas[t], activationDeltas[NextTimeStep(t, n)],
       states[t], stateDeltas[t], states[PreviousTimeStep(t, n)], stateDeltas[NextTimeStep(t, n)]],
      [Params(p)], p.unitCount, p.batchSize, 1)
  }

  /** The `lstm_backward_weights` invocation of step `t`: it reads the layer input, the
      state and activations of step `t` and the activations of the next step, and writes
      the weight and bias deltas of step `t`, over a `unitCount` by `batchSize` grid. */
  function BackwardWeightsAt(input: Buffer, states: seq<Buffer>, weightDeltas: seq<Buffer>, biasDeltas: seq<Buffer>,
                             activations: seq<Buffer>, p: Parameters, t: int): (r: Invocation)
    requires 0 <= t < |states|
    requires |weightDeltas| == |biasDeltas| == |activations| == |states|
    ensures r.functionName == "lstm_backward_weights" && |r.buffers| == 6 && r.buffers[0] == input
    ensures r.buffers[1] == states[t] && r.buffers[2] == weightDeltas[t] && r.buffers[3] == biasDeltas[t]
    ensures r.buffers[4] == activations[t] && r.buffers[5] == activations[(t + 1) % |states|]
    ensures r.width == p.unitCount && r.height == p.batchSize && r.depth == 1
  {
    CreateInvocation("lstm_backward_weights",
      [input, states[t], weightDeltas[t], biasDeltas[t], activations[t], activations[NextTimeStep(t, |states|)]],
      [Params(p)], p.unitCount, p.batchSize, 1)
  }

  /** The `lstm_backward_inputs` invocation of step `t`: from the activation deltas of
      step `t` and the weights to the input deltas, over an `inputSize` by `batchSize` grid. */
  function BackwardInputsAt(inputDeltas: Buffer, weights: Buffer, activationDeltas: seq<Buffer>, p: Parameters, t: int): (r: Invocation)
    requires 0 <= t < |activationDeltas|
    ensures r.functionName == "lstm_backward_inputs" && r.buffers == [inputDeltas, weights, activationDeltas[t]]
    ensures r.width == p.inputSize && r.height == p.batchSize && r.depth == 1
  {
    CreateInvocation("lstm_backward_inputs", [inputDeltas, weights, activationDeltas[t]], [Params(p)], p.inputSize, p.batchSize, 1)
  }

  /** `guard let x = list?[T]`: nil lists trap with `reason`, indexes outside the list trap as subscripts do. */
  function At(list: Option<seq<Invocation>>, t: int, reason: string): (r: Result<Invocation>)
    ensures list.None? ==> r == Fatal(reason)
    ensures list.Some? && !(0 <= t < |list.value|) ==> r == Fatal(IndexReason)
    ensures list.Some? && 0 <= t < |list.value| ==> r == Ok(list.value[t])
  {
    match list
    case None => Fatal(reason)
    case Some(s) => if 0 <= t < |s| then Ok(s[t]) else Fatal(IndexReason)
  }

  /** `if x == nil { x = builder.createBuffer(...) }` for one buffer. */
  method LazyBuffer(builder: InvocationBuilder, current: Option<Buffer>, name: string, count: nat) returns (b: Buffer)
    modifies builder`nextSerial
    ensures current.Some? ==> b == current.value && builder.nextSerial == old(builder.nextSerial)
    ensures current.None? ==> b == Buffer(Created(old(builder.nextSerial)), name, count * FloatSize)
                              && builder.nextSerial == old(builder.nextSerial) + 1
  {
    if current.Some? {
      b := current.value;
    } else {
      b := builder.CreateBufferWithElements(name, count);
    }
  }

  /** `if list == nil { list = []; for time in 0..<count { list!.append(...) } }`. */
  method LazySeries(builder: InvocationBuilder, current: Option<seq<Buffer>>, prefix: string, size: int, count: nat) returns (bs: seq<Buffer>)
    modifies builder`nextSerial
    ensures current.Some? ==> bs == current.value && builder.nextSerial == old(builder.nextSerial)
    ensures current.None? ==> builder.nextSerial == old(builder.nextSerial) + count && |bs| == count
    ensures current.None? ==> forall t | 0 <= t < count :: bs[t] == Buffer(Created(old(builder.nextSerial) + t), prefix + Decimal(t), size)
  {
    if current.Some? {
      bs := current.value;
    } else {
      bs := builder.CreateSeries(prefix, size, count);
    }
  }

  /** The loop of `initializeForward` that appends step 0, 1, ... in turn. */
  method BuildForwardList(input: Buffer, output: Buffer, weights: Buffer, biases: Buffer,
                          activations: seq<Buffer>, states: seq<Buffer>, p: Parameters) returns (list: seq<Invocation>)
    requires |activations| == |states|
    ensures |list| == |states|
    ensures forall t | 0 <= t < |states| :: list[t] == ForwardInvocationAt(input, output, weights, biases, activations, states, p, t)
  {
    list := [];
    for timeStep := 0 to |states|
      invariant |list| == timeStep
      invariant forall t | 0 <= t < timeStep :: list[t] == ForwardInvocationAt(input, output, weights, biases, activations, states, p, t)
    {
      list := list + [ForwardInvocationAt(input, output, weights, biases, activations, states, p, timeStep)];
    }
  }

  /** The three lists of `initializeBackward`, built over `(0..<timeSteps).reverse()`:
      entry `i` of each list is time step `n - 1 - i`. */
  method BuildBackwardLists(input: Buffer, inputDeltas: Buffer, outputDeltas: Buffer, weights: Buffer,
                            activations: seq<Buffer>, activationDeltas: seq<Buffer>, states: seq<Buffer>, stateDeltas: seq<Buffer>,
                            weightDeltas: seq<Buffer>, biasDeltas: seq<Buffer>, p: Parameters)
    returns (acts: seq<Invocation>, wts: seq<Invocation>, ins: seq<Invocation>)
    requires |activations| == |activationDeltas| == |stateDeltas| == |weightDeltas| == |biasDeltas| == |states|
    ensures |acts| == |wts| == |ins| == |states|
    ensures forall i | 0 <= i < |states| ::
              acts[i] == BackwardActivationsAt(outputDeltas, weights, activations, activationDeltas, states, stateDeltas, p, |states| - 1 - i)
    ensures forall i | 0 <= i < |states| ::
              wts[i] == BackwardWeightsAt(input, states, weightDeltas, biasDeltas, activations, p, |states| - 1 - i)
    ensures forall i | 0 <= i < |states| ::
              ins[i] == BackwardInputsAt(inputDeltas, weights, activationDeltas, p, |states| - 1 - i)
  {
    var n := |states|;
    acts, wts, ins := [], [], [];
    for k := 0 to n
      invariant |acts| == |wts| == |ins| == k
      invariant forall i | 0 <= i < k ::
                  acts[i] == BackwardActivationsAt(outputDeltas, weights, activations, activationDeltas, states, stateDeltas, p, n - 1 - i)
      invariant forall i | 0 <= i < k :: wts[i] == BackwardWeightsAt(input, states, weightDeltas, biasDeltas, activations, p, n - 1 - i)
      invariant forall i | 0 <= i < k :: ins[i] == BackwardInputsAt(inputDeltas, weights, activationDeltas, p, n - 1 - i)
    {
      var timeStep := n - 1 - k;
      acts := acts + [BackwardActivationsAt(outputDeltas, weights, activations, activationDeltas, states, stateDeltas, p, timeStep)];
      wts := wts + [BackwardWeightsAt(input, states, weightDeltas, biasDeltas, activations, p, timeStep)];
      ins := ins + [BackwardInputsAt(inputDeltas, weights, activationDeltas, p, timeStep)];
    }
  }

  /** Going forward, each step's previous-state argument is the state buffer the step
      before it (on the ring) writes, so step 0 continues from the last step. */
  lemma ForwardRecurrence(input: Buffer, output: Buffer, weights: Buffer, biases: Buffer,
                          activations: seq<Buffer>, states: seq<Buffer>, p: Parameters, t: nat)
    requires |activations| == |states| && t < |states|
    ensures ForwardInvocationAt(input, output, weights, biases, activations, states, p, t).buffers[6] == states[t]
    ensures ForwardInvocationAt(input, output, weights, biases, activations, states, p, NextTimeStep(t, |states|)).buffers[5]
            == states[t]
  {
    TimeStepRing(t, |states|);
  }

  /** Going backward, list position `i + 1` holds the step before the one at position
      `i`; its activations invocation reads as next-step state deltas the buffer the
      invocation at position `i` writes as its own. */
  lemma BackwardRecurrence(outputDeltas: Buffer, weights: Buffer, activations: seq<Buffer>,
                           activationDeltas: seq<Buffer>, states: seq<Buffer>, stateDeltas: seq<Buffer>, p: Parameters, i: nat)
    requires |activations| == |activationDeltas| == |stateDeltas| == |states| && i + 1 < |states|
    ensures BackwardActivationsAt(outputDeltas, weights, activations, activationDeltas, states, stateDeltas, p, |states| - 1 - i).buffers[7]
            == stateDeltas[|states| - 1 - i]
    ensures BackwardActivationsAt(outputDeltas, weights, activations, activationDeltas, states, stateDeltas, p, |states| - 2 - i).buffers[9]
            == stateDeltas[|states| - 1 - i]
  {
    TimeStepRing(|states| - 2 - i, |states|);
  }

  /** The buffers an LSTM layer creates once and keeps: the weight and bias buffers,
      and one buffer per time step for each of the six per-step lists. Each is nil
      until the first initialisation that needs it. */
  datatype LayerBuffers = LayerBuffers(
    weights: Option<Buffer>,
    biases: Option<Buffer>,
    states: Option<seq<Buffer>>,
    stateDeltas: Option<seq<Buffer>>,
    activations: Option<seq<Buffer>>,
    activationDeltas: Option<seq<Buffer>>,
    weightDeltas: Option<seq<Buffer>>,
    biasDeltas: Option<seq<Buffer>>)
  {
    /** Every list that exists has one buffer per time step. */
    predicate Spans(n: int) {
      (states.Some? ==> |states.value| == n) && (stateDeltas.Some? ==> |stateDeltas.value| == n)
      && (activations.Some? ==> |activations.value| == n) && (activationDeltas.Some? ==> |activationDeltas.value| == n)
      && (weightDeltas.Some? ==> |weightDeltas.value| == n) && (biasDeltas.Some? ==> |biasDeltas.value| == n)
    }

    /** `other` keeps every buffer and list this record already has. */
    predicate KeptIn(other: LayerBuffers) {
      (weights.Some? ==> other.weights == weights) && (biases.Some? ==> other.biases == biases)
      && (states.Some? ==> other.states == states) && (stateDeltas.Some? ==> other.stateDeltas == stateDeltas)
      && (activations.Some? ==> other.activations == activations)
      && (activationDeltas.Some? ==> other.activationDeltas == activationDeltas)
      && (weightDeltas.Some? ==> other.weightDeltas == weightDeltas) && (biasDeltas.Some? ==> other.biasDeltas == biasDeltas)
    }

    /** Every buffer `other` has that this record lacks was created from serial number `from` on. */
    predicate FreshIn(other: LayerBuffers, from: nat, bound: nat) {
      (weights.None? && other.weights.Some? ==> CreatedSince(other.weights.value, from, bound))
      && (biases.None? && other.biases.Some? ==> CreatedSince(other.biases.value, from, bound))
      && (states.None? && other.states.Some? ==> AllCreatedSince(other.states.value, from, bound))
      && (stateDeltas.None? && other.stateDeltas.Some? ==> AllCreatedSince(other.stateDeltas.value, from, bound))
      && (activations.None? && other.activations.Some? ==> AllCreatedSince(other.activations.value, from, bound))
      && (activationDeltas.None? && other.activationDeltas.Some? ==> AllCreatedSince(other.activationDeltas.value, from, bound))
      && (weightDeltas.None? && other.weightDeltas.Some? ==> AllCreatedSince(other.weightDeltas.value, from, bound))
      && (biasDeltas.None? && other.biasDeltas.Some? ==> AllCreatedSince(other.biasDeltas.value, from, bound))
    }

    predicate ForwardReady() {
      weights.Some? && biases.Some? && states.Some? && activations.Some?
    }

    predicate BackwardReady() {
      ForwardReady() && stateDeltas.Some? && activationDeltas.Some? && weightDeltas.Some? && biasDeltas.Some?
    }
  }

  predicate AllCreatedSince(bs: seq<Buffer>, from: nat, bound: nat) {
    forall t | 0 <= t < |bs| :: CreatedSince(bs[t], from, bound)
  }

  /** Buffer `t` of a per-time-step list is named `prefix` followed by `t` and has `size` bytes. */
  predicate SeriesNamed(bs: seq<Buffer>, prefix: string, size: int) {
    forall t | 0 <= t < |bs| :: bs[t].name == prefix + Decimal(t) && bs[t].size == size
  }

  /** The invocation lists, one entry per time step; nil until the matching initialisation. */
  datatype LayerInvocations = LayerInvocations(
    forward: Option<seq<Invocation>>,
    backwardActivations: Option<seq<Invocation>>,
    backwardWeights: Option<seq<Invocation>>,
    backwardInputs: Option<seq<Invocation>>)
  {
    predicate Covers(n: int) {
      (forward.Some? ==> |forward.value| == n)
      && (backwardActivations.Some? ==> |backwardActivations.value| == n)
      && (backwardWeights.Some? ==> |backwardWeights.value| == n)
      && (backwardInputs.Some? ==> |backwardInputs.value| == n)
    }
  }

  /** A series created by `LazySeries` from serial `from` lies in `[from, bound)` when the counter ends at `bound`. */
  lemma SeriesCreatedSince(bs: seq<Buffer>, from: nat, prefix: string, size: int, bound: nat)
    requires forall t | 0 <= t < |bs| :: bs[t] == Buffer(Created(from + t), prefix + Decimal(t), size)
    requires from + |bs| <= bound
    ensures AllCreatedSince(bs, from, bound)
  {
  }

  class LSTMLayer {
    const weightsRows: nat
    const weightsColumns: nat
    const biasCount: nat
    const clipTo: real
    const unitCount: int
    const inputSize: int
    const timeSteps: int

    var T: int
    var buffers: LayerBuffers
    var invocations: LayerInvocations

    function OutputSize(): int { unitCount }
    function StateSize(): int { 2 * unitCount }

    /** The names and byte sizes the initialisations give every buffer and list that
        `after` holds and `before` lacked. */
    predicate NamedAsCreated(before: LayerBuffers, after: LayerBuffers, batchSize: int) {
      var stateBytes, activationBytes := batchSize * StateSize() * FloatSize, batchSize * unitCount * FloatSize;
      && (before.weights.None? && after.weights.Some? ==>
            after.weights.value.name == "weights" && after.weights.value.size == weightsRows * weightsColumns * FloatSize)
      && (before.biases.None? && after.biases.Some? ==>
            after.biases.value.name == "biases" && after.biases.value.size == biasCount * FloatSize)
      && (before.states.None? && after.states.Some? ==> SeriesNamed(after.states.value, "state", stateBytes))
      && (before.stateDeltas.None? && after.stateDeltas.Some? ==> SeriesNamed(after.stateDeltas.value, "state", stateBytes))
      && (before.activations.None? && after.activations.Some? ==>
            SeriesNamed(after.activations.value, "activation", activationBytes))
      && (before.activationDeltas.None? && after.activationDeltas.Some? ==>
            SeriesNamed(after.activationDeltas.value, "activation", activationBytes))
      && (before.weightDeltas.None? && after.weightDeltas.Some? ==>
            SeriesNamed(after.weightDeltas.value, "weightDeltas", weightsRows * weightsColumns * FloatSize))
      && (before.biasDeltas.None? && after.biasDeltas.Some? ==>
            SeriesNamed(after.biasDeltas.value, "biasDeltas", biasCount * FloatSize))
    }

    /** `T` indexes a time step, and every list that exists has one entry per time step. */
    ghost predicate Valid()
      reads this
    {
      0 <= T && (timeSteps > 0 ==> T < timeSteps) && buffers.Spans(timeSteps) && invocations.Covers(timeSteps)
    }

    /** `init(weights:biases:batchSize:timeSteps:name:clipTo:)`: one unit per four
        biases, the weight rows hold the inputs then the units, and the weight
        columns must be four per unit. */
    constructor(weightsRows: nat, weightsColumns: nat, biasCount: nat, timeSteps: int, clipTo: Option<real>)
      requires weightsColumns == 4 * (biasCount / 4)
      ensures Valid()
      ensures this.weightsRows == weightsRows && this.weightsColumns == weightsColumns && this.biasCount == biasCount
      ensures this.timeSteps == timeSteps && this.clipTo == clipTo.GetOr(0.0)
      ensures unitCount == biasCount / 4 && inputSize == weightsRows - unitCount
      ensures this.weightsColumns == 4 * OutputSize() && inputSize + OutputSize() == this.weightsRows
      ensures StateSize() == 2 * OutputSize() && 4 * OutputSize() <= this.biasCount < 4 * OutputSize() + 4
      ensures T == 0
      ensures buffers == LayerBuffers(None, None, None, None, None, None, None, None)
      ensures invocations == LayerInvocations(None, None, None, None)
    {
      this.weightsRows := weightsRows;
      this.weightsColumns := weightsColumns;
      this.biasCount := biasCount;
      this.clipTo := clipTo.GetOr(0.0);
      unitCount := biasCount / 4;
      inputSize := weightsRows - biasCount / 4;
      this.timeSteps := timeSteps;
      T := 0;
      buffers := LayerBuffers(None, None, None, None, None, None, None, None);
      invocations := LayerInvocations(None, None, None, None);
    }

    /** `forwardInvocations`: the invocation of step `T`, then `T` moves on one step. */
    method ForwardInvocations() returns (r: Result<seq<Invocation>>)
      requires Valid()
      modifies this`T
      ensures Valid()
      ensures r.Fatal? ==> T == old(T)
      ensures r == (match At(invocations.forward, old(T), ForwardInitReason)
                    case Fatal(reason) => Fatal(reason)
                    case Ok(x) => Ok([x]))
      ensures r.Ok? ==> T == (old(T) + 1) % timeSteps
      ensures invocations.forward.Some? && timeSteps > 0 ==> r.Ok?
    {
      var x := At(invocations.forward, T, ForwardInitReason);
      if x.Fatal? {
        return Fatal(x.reason);
      }
      T := (T + 1) % timeSteps;
      r := Ok([x.value]);
    }

    /** `backwardInvocations`: the activations, weights and inputs invocations of step `T`, in that order. */
    method BackwardInvocations() returns (r: Result<seq<Invocation>>)
      requires Valid()
      modifies this`T
      ensures Valid()
      ensures r.Fatal? ==> T == old(T)
      ensures r.Ok? <==> At(invocations.backwardActivations, old(T), BackwardInitReason).Ok?
                         && At(invocations.backwardWeights, old(T), BackwardInitReason).Ok?
                         && At(invocations.backwardInputs, old(T), BackwardInitReason).Ok?
      ensures r.Ok? ==> r.value == [invocations.backwardActivations.value[old(T)],
                                    invocations.backwardWeights.value[old(T)],
                                    invocations.backwardInputs.value[old(T)]]
      ensures r.Ok? ==> T == (old(T) + 1) % timeSteps
      ensures r.Fatal? && invocations.backwardActivations.None? ==> r.reason == BackwardInitReason
      ensures (invocations.backwardActivations.Some? && invocations.backwardWeights.Some?
               && invocations.backwardInputs.Some? && timeSteps > 0) ==> r.Ok?
    {
      var a := At(invocations.backwardActivations, T, BackwardInitReason);
      if a.Fatal? {
        return Fatal(a.reason);
      }
      var w := At(invocations.backwardWeights, T, BackwardInitReason);
      if w.Fatal? {
        return Fatal(w.reason);
      }
      var i := At(invocations.backwardInputs, T, BackwardInitReason);
      if i.Fatal? {
        return Fatal(i.reason);
      }
      T := (T + 1) % timeSteps;
      r := Ok([a.value, w.value, i.value]);
    }

    /** The creation half of `initializeForward`: the weights, biases, state and
        activation buffers that are still nil are created, in the order of the source. */
    method CreateForwardBuffers(builder: InvocationBuilder, batchSize: int, before: LayerBuffers) returns (b: LayerBuffers)
      requires timeSteps >= 0 && before.Spans(timeSteps)
      modifies builder`nextSerial
      ensures old(builder.nextSerial) <= builder.nextSerial
      ensures b.Spans(timeSteps) && b.ForwardReady()
      ensures before.KeptIn(b) && before.FreshIn(b, old(builder.nextSerial), builder.nextSerial)
      ensures NamedAsCreated(before, b, batchSize)
      ensures b.stateDeltas == before.stateDeltas && b.activationDeltas == before.activationDeltas
      ensures b.weightDeltas == before.weightDeltas && b.biasDeltas == before.biasDeltas
    {
      var w := LazyBuffer(builder, before.weights, "weights", weightsRows * weightsColumns);
      var bias := LazyBuffer(builder, before.biases, "biases", biasCount);
      var s0 := builder.nextSerial;
      var states := LazySeries(builder, before.states, "state", batchSize * StateSize() * FloatSize, timeSteps);
      var s1 := builder.nextSerial;
      var activations := LazySeries(builder, before.activations, "activation", batchSize * unitCount * FloatSize, timeSteps);
      if before.states.None? { SeriesCreatedSince(states, s0, "state", batchSize * StateSize() * FloatSize, builder.nextSerial); }
      if before.activations.None? { SeriesCreatedSince(activations, s1, "activation", batchSize * unitCount * FloatSize, builder.nextSerial); }
      b := before.(weights := Some(w), biases := Some(bias), states := Some(states), activations := Some(activations));
    }

    /** `initializeForward`: creates the buffers that do not exist yet, then lists one
        `lstm_forward` invocation per time step. The conversions to `UInt16` and a
        negative `timeSteps` trap; the model reports those traps before changing anything. */
    method InitializeForward(builder: InvocationBuilder, batchSize: int) returns (r: Result<()>)
      requires Valid()
      modifies this`buffers, this`invocations, builder`nextSerial
      ensures Valid()
      ensures r.Ok? <==> MakeParameters(batchSize, unitCount, inputSize, clipTo).Ok? && timeSteps >= 0
      ensures r.Fatal? ==> buffers == old(buffers) && invocations == old(invocations) && builder.nextSerial == old(builder.nextSerial)
      ensures r.Ok? ==> old(buffers).KeptIn(buffers) && old(buffers).FreshIn(buffers, old(builder.nextSerial), builder.nextSerial)
      ensures r.Ok? ==> NamedAsCreated(old(buffers), buffers, batchSize)
      ensures r.Ok? ==> buffers.ForwardReady() && invocations.forward.Some?
      ensures r.Ok? ==> buffers.stateDeltas == old(buffers.stateDeltas) && buffers.activationDeltas == old(buffers.activationDeltas)
                        && buffers.weightDeltas == old(buffers.weightDeltas) && buffers.biasDeltas == old(buffers.biasDeltas)
      ensures r.Ok? ==> forall t | 0 <= t < timeSteps ::
                invocations.forward.value[t]
                == ForwardInvocationAt(builder.inputBuffer, builder.outputBuffer, buffers.weights.value, buffers.biases.value,
                                       buffers.activations.value, buffers.states.value,
                                       MakeParameters(batchSize, unitCount, inputSize, clipTo).value, t)
      ensures r.Ok? ==> invocations.(forward := old(invocations.forward)) == old(invocations)
    {
      var params := MakeParameters(batchSize, unitCount, inputSize, clipTo);
      if params.Fatal? {
        return Fatal(params.reason);
      }
      if timeSteps < 0 {
        return Fatal(RangeReason);
      }
      var b := CreateForwardBuffers(builder, batchSize, buffers);
      var list := BuildForwardList(builder.inputBuffer, builder.outputBuffer, b.weights.value, b.biases.value,
                                   b.activations.value, b.states.value, params.value);
      buffers := b;
      invocations := invocations.(forward := Some(list));
      r := Ok(());
    }

    /** The creation half of `initializeBackward`: every buffer and buffer list that is
        still nil is created, in the order of the source. */
    method CreateBackwardBuffers(builder: InvocationBuilder, batchSize: int, before: LayerBuffers) returns (b: LayerBuffers)
      requires timeSteps >= 0 && before.Spans(timeSteps)
      modifies builder`nextSerial
      ensures old(builder.nextSerial) <= builder.nextSerial
      ensures b.Spans(timeSteps) && b.BackwardReady()
      ensures before.KeptIn(b) && before.FreshIn(b, old(builder.nextSerial), builder.nextSerial)
      ensures NamedAsCreated(before, b, batchSize)
    {
      var w := LazyBuffer(builder, before.weights, "weights", weightsRows * weightsColumns);
      var bias := LazyBuffer(builder, before.biases, "biases", biasCount);
      var stateSize := batchSize * StateSize() * FloatSize;
      var activationSize := batchSize * unitCount * FloatSize;
      var states := CreateListStep(builder, before.states, "state", stateSize);
      var stateDeltas := CreateListStep(builder, before.stateDeltas, "state", stateSize);
      var activations := CreateListStep(builder, before.activations, "activation", activationSize);
      var activationDeltas := CreateListStep(builder, before.activationDeltas, "activation", activationSize);
      var weightDeltas := CreateListStep(builder, before.weightDeltas, "weightDeltas", weightsRows * weightsColumns * FloatSize);
      var biasDeltas := CreateListStep(builder, before.biasDeltas, "biasDeltas", biasCount * FloatSize);
      b := LayerBuffers(Some(w), Some(bias), Some(states), Some(stateDeltas), Some(activations), Some(activationDeltas),
                        Some(weightDeltas), Some(biasDeltas));
      assert before.FreshIn(b, old(builder.nextSerial), builder.nextSerial);
    }

    /** One lazily created per-time-step list, its buffers new when it is created. */
    method CreateListStep(builder: InvocationBuilder, current: Option<seq<Buffer>>, prefix: string, size: int) returns (bs: seq<Buffer>)
      requires timeSteps >= 0 && (current.Some? ==> |current.value| == timeSteps)
      modifies builder`nextSerial
      ensures old(builder.nextSerial) <= builder.nextSerial && |bs| == timeSteps
      ensures current.Some? ==> bs == current.value
      ensures current.None? ==> AllCreatedSince(bs, old(builder.nextSerial), builder.nextSerial)
      ensures current.None? ==> SeriesNamed(bs, prefix, size)
    {
      bs := LazySeries(builder, current, prefix, size, timeSteps);
      if current.None? {
        SeriesCreatedSince(bs, old(builder.nextSerial), prefix, size, builder.nextSerial);
      }
    }

    /** `initializeBackward`: creates every buffer list that does not exist yet, then
        lists the three backward invocations of each time step, last step first. */
    method InitializeBackward(builder: InvocationBuilder, batchSize: int) returns (r: Result<()>)
      requires Valid()
      modifies this`buffers, this`invocations, builder`nextSerial
      ensures Valid()
      ensures r.Ok? <==> MakeParameters(batchSize, unitCount, inputSize, clipTo).Ok? && timeSteps >= 0
      ensures r.Fatal? ==> buffers == old(buffers) && invocations == old(invocations) && builder.nextSerial == old(builder.nextSerial)
      ensures r.Ok? ==> old(buffers).KeptIn(buffers) && old(buffers).FreshIn(buffers, old(builder.nextSerial), builder.nextSerial)
      ensures r.Ok? ==> NamedAsCreated(old(buffers), buffers, batchSize)
      ensures r.Ok? ==> buffers.BackwardReady()
      ensures r.Ok? ==> invocations.backwardActivations.Some? && invocations.backwardWeights.Some? && invocations.backwardInputs.Some?
      ensures r.Ok? ==> forall i | 0 <= i < timeSteps ::
                invocations.backwardActivations.value[i]
                == BackwardActivationsAt(builder.outputDeltasBuffer, buffers.weights.value, buffers.activations.value,
                                         buffers.activationDeltas.value, buffers.states.value, buffers.stateDeltas.value,
                                         MakeParameters(batchSize, unitCount, inputSize, clipTo).value, timeSteps - 1 - i)
      ensures r.Ok? ==> forall i | 0 <= i < timeSteps ::
                invocations.backwardWeights.value[i]
                == BackwardWeightsAt(builder.inputBuffer, buffers.states.value, buffers.weightDeltas.value, buffers.biasDeltas.value,
                                     buffers.activations.value, MakeParameters(batchSize, unitCount, inputSize, clipTo).value,
                                     timeSteps - 1 - i)
      ensures r.Ok? ==> forall i | 0 <= i < timeSteps ::
                invocations.backwardInputs.value[i]
                == BackwardInputsAt(builder.inputDeltasBuffer, buffers.weights.value, buffers.activationDeltas.value,
                                    MakeParameters(batchSize, unitCount, inputSize, clipTo).value, timeSteps - 1 - i)
      ensures r.Ok? ==> invocations.forward == old(invocations.forward)
    {
      var params := MakeParameters(batchSize, unitCount, inputSize, clipTo);
      if params.Fatal? {
        return Fatal(params.reason);
      }
      if timeSteps < 0 {
        return Fatal(RangeReason);
      }
      var b := CreateBackwardBuffers(builder, batchSize, buffers);
      var acts, wts, ins := BuildBackwardLists(builder.inputBuffer, builder.inputDeltasBuffer, builder.outputDeltasBuffer,
                                               b.weights.value, b.activations.value, b.activationDeltas.value,
                                               b.states.value, b.stateDeltas.value, b.weightDeltas.value, b.biasDeltas.value,
                                               params.value);
      buffers := b;
      invocations := invocations.(backwardActivations := Some(acts), backwardWeights := Some(wts), backwardInputs := Some(ins));
      r := Ok(());
    }
  }
}
