/** One LSTM cell of an unrolled sequence (Source/Layers/LSTMNodeLayer.swift): it
    shares its weight and bias buffers with a neighbouring cell, takes its previous
    state from the cell before it, and wires its backward buffers into both neighbours. */
module LSTMNode {
  import opened Outcomes
  import opened Invocations

  const ForwardInitReason := "initializeForward needs to be called first"
  const BackwardInitReason := "initializeBackward needs to be called first"
  const OrderReason := "initializeForward must be called BEFORE initializeBackward."
  const WeightsReason := "LSTM weights were not initialized"
  const BiasesReason := "LSTM biases were not initialized"
  const NegativeReason := "Negative value is not representable"

  /** Where `initializeForward` takes the weight and bias buffers from. */
  datatype ParameterSource = FromPrevious | FromNext | CreateNew

  /** The previous cell's pair when it has both, else the next cell's when it has both, else new buffers. */
  function ChooseSource(prevWeights: Option<Buffer>, prevBiases: Option<Buffer>,
                        nextWeights: Option<Buffer>, nextBiases: Option<Buffer>): (s: ParameterSource)
    ensures s == FromPrevious <==> prevWeights.Some? && prevBiases.Some?
    ensures s == FromNext <==> !(prevWeights.Some? && prevBiases.Some?) && nextWeights.Some? && nextBiases.Some?
  {
    if prevWeights.Some? && prevBiases.Some? then FromPrevious
    else if nextWeights.Some? && nextBiases.Some? then FromNext
    else CreateNew
  }

  /** Cells initialised in order along a chain all end up with the first cell's pair:
      once a cell has both buffers, the cell after it takes them over. */
  lemma {:induction false} SharedAlongChain(pairs: seq<(Option<Buffer>, Option<Buffer>)>, first: (Buffer, Buffer))
    requires |pairs| >= 1 && pairs[0] == (Some(first.0), Some(first.1))
    requires forall t | 1 <= t < |pairs| ::
               ChooseSource(pairs[t - 1].0, pairs[t - 1].1, None, None) == FromPrevious
               ==> pairs[t] == pairs[t - 1]
    ensures forall t | 0 <= t < |pairs| :: pairs[t] == (Some(first.0), Some(first.1))
    decreases |pairs|
  {
    if |pairs| > 1 {
      SharedAlongChain(pairs[..|pairs| - 1], first);
      var t := |pairs| - 1;
      assert pairs[t - 1] == pairs[..|pairs| - 1][t - 1];
    }
  }

  /** A buffer a cell reads from a neighbour: the one the neighbour already `held`, or,
      when it had none, one created with a serial number in `[from, bound)`. */
  predicate TakenOrCreated(b: Buffer, held: Option<Buffer>, name: string, size: int, from: nat, bound: nat) {
    if held.Some? then b == held.value else CreatedAs(b, name, size, from, bound)
  }

  class LSTMNodeLayer {
    const weightsRows: nat
    const weightsColumns: nat
    const biasCount: nat
    const clipTo: real
    const unitCount: int
    const inputSize: int

    var time: int
    var previousNode: LSTMNodeLayer?
    var nextNode: LSTMNodeLayer?

    var weightsBuffer: Option<Buffer>
    var weightsDeltasBuffer: Option<Buffer>
    var biasesBuffer: Option<Buffer>
    var biasesDeltasBuffer: Option<Buffer>
    var stateBuffer: Option<Buffer>
    var stateDeltasBuffer: Option<Buffer>
    var activationBuffer: Option<Buffer>
    var activationDeltasBuffer: Option<Buffer>

    var forwardInvocation: Option<Invocation>
    var backwardActivationsInvocation: Option<Invocation>
    var backwardWeightsInvocation: Option<Invocation>
    var backwardInputsInvocation: Option<Invocation>

    function OutputSize(): int { unitCount }
    function StateSize(): int { 2 * unitCount }

    /** `init(weights:biases:time:previousNode:nextNode:name:clipTo:)`. */
    constructor(weightsRows: nat, weightsColumns: nat, biasCount: nat, time: int,
                previousNode: LSTMNodeLayer?, nextNode: LSTMNodeLayer?, clipTo: Option<real>)
      requires weightsColumns == 4 * (biasCount / 4)
      ensures this.weightsRows == weightsRows && this.weightsColumns == weightsColumns && this.biasCount == biasCount
      ensures this.clipTo == clipTo.GetOr(0.0) && this.time == time
      ensures unitCount == biasCount / 4 && inputSize == weightsRows - unitCount
      ensures this.previousNode == previousNode && this.nextNode == nextNode
      ensures weightsBuffer.None? && weightsDeltasBuffer.None? && biasesBuffer.None? && biasesDeltasBuffer.None?
      ensures stateBuffer.None? && stateDeltasBuffer.None? && activationBuffer.None? && activationDeltasBuffer.None?
      ensures forwardInvocation.None? && backwardActivationsInvocation.None?
      ensures backwardWeightsInvocation.None? && backwardInputsInvocation.None?
    {
      this.weightsRows := weightsRows;
      this.weightsColumns := weightsColumns;
      this.biasCount := biasCount;
      this.clipTo := clipTo.GetOr(0.0);
      unitCount := biasCount / 4;
      inputSize := weightsRows - biasCount / 4;
      this.time := time;
      this.previousNode := previousNode;
      this.nextNode := nextNode;
      weightsBuffer, weightsDeltasBuffer, biasesBuffer, biasesDeltasBuffer := None, None, None, None;
      stateBuffer, stateDeltasBuffer, activationBuffer, activationDeltasBuffer := None, None, None, None;
      forwardInvocation := None;
      backwardActivationsInvocation, backwardWeightsInvocation, backwardInputsInvocation := None, None, None;
    }

    /** `forwardInvocations`. */
    function ForwardInvocations(): (r: Result<seq<Invocation>>)
      reads this
      ensures r.Ok? <==> forwardInvocation.Some?
      ensures r.Ok? ==> r.value == [forwardInvocation.value]
      ensures r.Fatal? ==> r.reason == ForwardInitReason
    {
      match forwardInvocation
      case None => Fatal(ForwardInitReason)
      case Some(x) => Ok([x])
    }

    /** `backwardInvocations`: activations, weights, inputs, in that order. */
    function BackwardInvocations(): (r: Result<seq<Invocation>>)
      reads this
      ensures r.Ok? <==> backwardActivationsInvocation.Some? && backwardWeightsInvocation.Some? && backwardInputsInvocation.Some?
      ensures r.Ok? ==> r.value == [backwardActivationsInvocation.value, backwardWeightsInvocation.value, backwardInputsInvocation.value]
      ensures r.Fatal? ==> r.reason == BackwardInitReason
    {
      if backwardActivationsInvocation.Some? && backwardWeightsInvocation.Some? && backwardInputsInvocation.Some? then
        Ok([backwardActivationsInvocation.value, backwardWeightsInvocation.value, backwardInputsInvocation.value])
      else
        Fatal(BackwardInitReason)
    }

    /** `encodeParametersUpdate`: the calls made to the action, in order. */
    function EncodeParametersUpdate(): (r: Result<seq<(Buffer, Buffer)>>)
      reads this
      ensures r.Ok? <==> weightsBuffer.Some? && weightsDeltasBuffer.Some? && biasesBuffer.Some? && biasesDeltasBuffer.Some?
      ensures r.Ok? ==> |r.value| == 2
      ensures r.Ok? ==> r.value[0] == (weightsBuffer.value, weightsDeltasBuffer.value)
      ensures r.Ok? ==> r.value[1] == (biasesBuffer.value, biasesDeltasBuffer.value)
      ensures r.Fatal? ==> (r.reason == WeightsReason <==> weightsBuffer.None? || weightsDeltasBuffer.None?)
    {
      if weightsDeltasBuffer.None? || weightsBuffer.None? then Fatal(WeightsReason)
      else if biasesDeltasBuffer.None? || biasesBuffer.None? then Fatal(BiasesReason)
      else Ok([(weightsBuffer.value, weightsDeltasBuffer.value), (biasesBuffer.value, biasesDeltasBuffer.value)])
    }

    /** The parameters and the time value every invocation of this cell passes: the
        `UInt16` conversions and `UInt(time)` trap on values they cannot represent. */
    function Values(batchSize: int): (r: Result<seq<Value>>)
      reads this
      ensures r.Ok? <==> MakeParameters(batchSize, unitCount, inputSize, clipTo).Ok? && time >= 0
      ensures r.Ok? ==> r.value == [Time(time), Params(MakeParameters(batchSize, unitCount, inputSize, clipTo).value)]
    {
      var params := MakeParameters(batchSize, unitCount, inputSize, clipTo);
      if params.Fatal? then Fatal(params.reason)
      else if time < 0 then Fatal(NegativeReason)
      else Ok([Time(time), Params(params.value)])
    }

    /** The neighbours, as sets for frames. */
    function Next(): set<LSTMNodeLayer>
      reads this
    {
      if nextNode == null then {} else {nextNode}
    }

    function Previous(): set<LSTMNodeLayer>
      reads this
    {
      if previousNode == null then {} else {previousNode}
    }

    /** The byte sizes of one cell's state and activation buffers for a batch. */
    function StateBytes(batchSize: int): int { batchSize * StateSize() * FloatSize }
    function ActivationBytes(batchSize: int): int { batchSize * 4 * unitCount * FloatSize }

    /** The weight and bias delta buffers exist and are new, with the names and sizes
        `initializeBackward` gives them. */
    ghost predicate DeltasCreated(from: nat, bound: nat)
      reads this
    {
      && weightsDeltasBuffer.Some? && biasesDeltasBuffer.Some?
      && CreatedAs(weightsDeltasBuffer.value, "weights deltas", 4 * unitCount * (inputSize + unitCount) * FloatSize, from, bound)
      && CreatedAs(biasesDeltasBuffer.value, "biases deltas", 4 * unitCount * FloatSize, from, bound)
    }

    /** The weight and bias buffers the cell's neighbours offer, as `ChooseSource` sees them. */
    function Source(): ParameterSource
      reads this, previousNode, nextNode
    {
      ChooseSource(if previousNode == null then None else previousNode.weightsBuffer,
                   if previousNode == null then None else previousNode.biasesBuffer,
                   if nextNode == null then None else nextNode.weightsBuffer,
                   if nextNode == null then None else nextNode.biasesBuffer)
    }

    /** The weight-sharing rule of `initializeForward`: the previous cell's pair, else
        the next cell's, else two new buffers. */
    method SharedParameters(builder: InvocationBuilder) returns (w: Buffer, b: Buffer)
      modifies builder`nextSerial
      ensures old(builder.nextSerial) <= builder.nextSerial
      ensures Source() == FromPrevious ==> Some(w) == previousNode.weightsBuffer && Some(b) == previousNode.biasesBuffer
      ensures Source() == FromNext ==> Some(w) == nextNode.weightsBuffer && Some(b) == nextNode.biasesBuffer
      ensures Source() == CreateNew ==>
                CreatedAs(w, "weights", weightsRows * weightsColumns * FloatSize, old(builder.nextSerial), builder.nextSerial)
                && CreatedAs(b, "biases", biasCount * FloatSize, old(builder.nextSerial), builder.nextSerial)
    {
      match Source() {
        case FromPrevious =>
          w, b := previousNode.weightsBuffer.value, previousNode.biasesBuffer.value;
        case FromNext =>
          w, b := nextNode.weightsBuffer.value, nextNode.biasesBuffer.value;
        case CreateNew =>
          w := builder.CreateBufferWithElements("weights", weightsRows * weightsColumns);
          b := builder.CreateBufferWithElements("biases", biasCount);
      }
    }

    /** `previousNode?.stateBuffer`, or a new empty state buffer. */
    method PreviousState(builder: InvocationBuilder, batchSize: int) returns (ps: Buffer)
      modifies builder`nextSerial
      ensures old(builder.nextSerial) <= builder.nextSerial
      ensures if previousNode != null && previousNode.stateBuffer.Some? then ps == previousNode.stateBuffer.value
              else CreatedAs(ps, "empty state", StateBytes(batchSize), old(builder.nextSerial), builder.nextSerial)
    {
      if previousNode != null && previousNode.stateBuffer.Some? {
        ps := previousNode.stateBuffer.value;
      } else {
        ps := builder.CreateBuffer("empty state", StateBytes(batchSize));
      }
    }

    /** `initializeForward`: takes or creates the weight and bias buffers, creates this
        cell's state and activation buffers, takes the previous cell's state buffer as
        previous state (or a new empty one) and builds the forward invocation. The
        conversions that trap are reported before anything changes. */
    method InitializeForward(builder: InvocationBuilder, batchSize: int) returns (r: Result<()>)
      modifies this`weightsBuffer, this`biasesBuffer, this`stateBuffer, this`activationBuffer, this`forwardInvocation
      modifies builder`nextSerial
      ensures r.Ok? <==> old(Values(batchSize)).Ok?
      ensures r.Fatal? ==> unchanged(this) && builder.nextSerial == old(builder.nextSerial)
      ensures r.Ok? ==> weightsBuffer.Some? && biasesBuffer.Some? && stateBuffer.Some? && activationBuffer.Some?
      ensures r.Ok? && old(Source()) == FromPrevious ==>
                weightsBuffer == old(previousNode.weightsBuffer) && biasesBuffer == old(previousNode.biasesBuffer)
      ensures r.Ok? && old(Source()) == FromNext ==>
                weightsBuffer == old(nextNode.weightsBuffer) && biasesBuffer == old(nextNode.biasesBuffer)
      ensures r.Ok? && old(Source()) == CreateNew ==>
                CreatedAs(weightsBuffer.value, "weights", weightsRows * weightsColumns * FloatSize, old(builder.nextSerial), builder.nextSerial)
                && CreatedAs(biasesBuffer.value, "biases", biasCount * FloatSize, old(builder.nextSerial), builder.nextSerial)
      ensures r.Ok? ==> CreatedAs(stateBuffer.value, "state", StateBytes(batchSize), old(builder.nextSerial), builder.nextSerial)
                        && CreatedAs(activationBuffer.value, "activation", ActivationBytes(batchSize), old(builder.nextSerial), builder.nextSerial)
      ensures r.Ok? ==> forwardInvocation.Some? && |forwardInvocation.value.buffers| == 7
      ensures r.Ok? ==> forwardInvocation.value == CreateInvocation("lstm_forward_temporal",
                [builder.inputBuffer, weightsBuffer.value, biasesBuffer.value, builder.outputBuffer,
                 activationBuffer.value, forwardInvocation.value.buffers[5], stateBuffer.value],
                old(Values(batchSize)).value, unitCount, batchSize, 1)
      ensures r.Ok? ==> if previousNode != null && previousNode.stateBuffer.Some?
                        then forwardInvocation.value.buffers[5] == previousNode.stateBuffer.value
                        else CreatedAs(forwardInvocation.value.buffers[5], "empty state", StateBytes(batchSize),
                                       old(builder.nextSerial), builder.nextSerial)
    {
      var values := Values(batchSize);
      if values.Fatal? {
        return Fatal(values.reason);
      }
      var w, b := SharedParameters(builder);
      weightsBuffer, biasesBuffer := Some(w), Some(b);
      var state := builder.CreateBuffer("state", StateBytes(batchSize));
      stateBuffer := Some(state);
      var activation := builder.CreateBuffer("activation", ActivationBytes(batchSize));
      activationBuffer := Some(activation);
      var previousState := PreviousState(builder, batchSize);
      forwardInvocation := Some(CreateInvocation("lstm_forward_temporal",
        [builder.inputBuffer, w, b, builder.outputBuffer, activation, previousState, state],
        values.value, unitCount, batchSize, 1));
      r := Ok(());
    }

    /** The buffers `initializeBackward` takes from its neighbours with `??`: each one the
        neighbour already has, or a new one. */
    method NeighbourBuffers(builder: InvocationBuilder, batchSize: int)
      returns (nextActivation: Buffer, nextActivationDeltas: Buffer, nextStateDeltas: Buffer, previousState: Buffer)
      modifies builder`nextSerial
      ensures old(builder.nextSerial) <= builder.nextSerial
      ensures if nextNode != null && nextNode.activationBuffer.Some? then nextActivation == nextNode.activationBuffer.value
              else CreatedAs(nextActivation, "activation", ActivationBytes(batchSize), old(builder.nextSerial), builder.nextSerial)
      ensures if nextNode != null && nextNode.activationDeltasBuffer.Some? then nextActivationDeltas == nextNode.activationDeltasBuffer.value
              else CreatedAs(nextActivationDeltas, "activation deltas", ActivationBytes(batchSize), old(builder.nextSerial), builder.nextSerial)
      ensures if nextNode != null && nextNode.stateDeltasBuffer.Some? then nextStateDeltas == nextNode.stateDeltasBuffer.value
              else CreatedAs(nextStateDeltas, "state deltas", StateBytes(batchSize), old(builder.nextSerial), builder.nextSerial)
      ensures if previousNode != null && previousNode.stateBuffer.Some? then previousState == previousNode.stateBuffer.value
              else CreatedAs(previousState, "state", StateBytes(batchSize), old(builder.nextSerial), builder.nextSerial)
    {
      var activationSize := ActivationBytes(batchSize);
      var stateSize := StateBytes(batchSize);
      if nextNode != null && nextNode.activationBuffer.Some? {
        nextActivation := nextNode.activationBuffer.value;
      } else {
        nextActivation := builder.CreateBuffer("activation", activationSize);
      }
      if nextNode != null && nextNode.activationDeltasBuffer.Some? {
        nextActivationDeltas := nextNode.activationDeltasBuffer.value;
      } else {
        nextActivationDeltas := builder.CreateBuffer("activation deltas", activationSize);
      }
      if nextNode != null && nextNode.stateDeltasBuffer.Some? {
        nextStateDeltas := nextNode.stateDeltasBuffer.value;
      } else {
        nextStateDeltas := builder.CreateBuffer("state deltas", stateSize);
      }
      if previousNode != null && previousNode.stateBuffer.Some? {
        previousState := previousNode.stateBuffer.value;
      } else {
        previousState := builder.CreateBuffer("state", stateSize);
      }
    }

    /** The wiring step of `initializeBackward`: the next cell gets the activation,
        activation-deltas and state-deltas buffers this cell reads as its next step's,
        the previous cell gets the state buffer this cell reads as its previous state. */
    method WireNeighbours(nextActivation: Buffer, nextActivationDeltas: Buffer, nextStateDeltas: Buffer, previousState: Buffer)
      modifies Next()`activationBuffer, Next()`activationDeltasBuffer, Next()`stateDeltasBuffer, Previous()`stateBuffer
      ensures nextNode != null ==>
                nextNode.activationBuffer == Some(nextActivation)
                && nextNode.activationDeltasBuffer == Some(nextActivationDeltas)
                && nextNode.stateDeltasBuffer == Some(nextStateDeltas)
      ensures previousNode != null ==> previousNode.stateBuffer == Some(previousState)
    {
      if nextNode != null {
        nextNode.activationBuffer := Some(nextActivation);
        nextNode.activationDeltasBuffer := Some(nextActivationDeltas);
        nextNode.stateDeltasBuffer := Some(nextStateDeltas);
      }
      if previousNode != null {
        previousNode.stateBuffer := Some(previousState);
      }
    }

    /** `if stateDeltasBuffer == nil` / `if activationDeltasBuffer == nil`: this cell's own
        delta buffers, created only when nil (the next cell may have been handed them). */
    method OwnDeltas(builder: InvocationBuilder, batchSize: int)
      modifies this`stateDeltasBuffer, this`activationDeltasBuffer, builder`nextSerial
      ensures old(builder.nextSerial) <= builder.nextSerial
      ensures stateDeltasBuffer.Some? && activationDeltasBuffer.Some?
      ensures old(stateDeltasBuffer).Some? ==> stateDeltasBuffer == old(stateDeltasBuffer)
      ensures old(stateDeltasBuffer).None? ==>
                CreatedAs(stateDeltasBuffer.value, "state deltas", StateBytes(batchSize), old(builder.nextSerial), builder.nextSerial)
      ensures old(activationDeltasBuffer).Some? ==> activationDeltasBuffer == old(activationDeltasBuffer)
      ensures old(activationDeltasBuffer).None? ==>
                CreatedAs(activationDeltasBuffer.value, "activation deltas", ActivationBytes(batchSize),
                          old(builder.nextSerial), builder.nextSerial)
    {
      if stateDeltasBuffer.None? {
        var b := builder.CreateBuffer("state deltas", StateBytes(batchSize));
        stateDeltasBuffer := Some(b);
      }
      if activationDeltasBuffer.None? {
        var b := builder.CreateBuffer("activation deltas", ActivationBytes(batchSize));
        activationDeltasBuffer := Some(b);
      }
    }

    /** The neighbour hand-over of `initializeBackward`: the buffers read from the next and
        previous cells (created when the neighbour is missing or has none yet), installed in
        those neighbours. */
    method ShareWithNeighbours(builder: InvocationBuilder, batchSize: int)
      returns (nextActivation: Buffer, nextActivationDeltas: Buffer, nextStateDeltas: Buffer, previousState: Buffer)
      modifies Next()`activationBuffer, Next()`activationDeltasBuffer, Next()`stateDeltasBuffer, Previous()`stateBuffer
      modifies builder`nextSerial
      ensures old(builder.nextSerial) <= builder.nextSerial
      ensures TakenOrCreated(nextActivation, old(if nextNode == null then None else nextNode.activationBuffer),
                             "activation", ActivationBytes(batchSize), old(builder.nextSerial), builder.nextSerial)
      ensures TakenOrCreated(nextActivationDeltas, old(if nextNode == null then None else nextNode.activationDeltasBuffer),
                             "activation deltas", ActivationBytes(batchSize), old(builder.nextSerial), builder.nextSerial)
      ensures TakenOrCreated(nextStateDeltas, old(if nextNode == null then None else nextNode.stateDeltasBuffer),
                             "state deltas", StateBytes(batchSize), old(builder.nextSerial), builder.nextSerial)
      ensures TakenOrCreated(previousState, old(if previousNode == null then None else previousNode.stateBuffer),
                             "state", StateBytes(batchSize), old(builder.nextSerial), builder.nextSerial)
      ensures nextNode != null ==>
                nextNode.activationBuffer == Some(nextActivation)
                && nextNode.activationDeltasBuffer == Some(nextActivationDeltas)
                && nextNode.stateDeltasBuffer == Some(nextStateDeltas)
      ensures previousNode != null ==> previousNode.stateBuffer == Some(previousState)
    {
      nextActivation, nextActivationDeltas, nextStateDeltas, previousState := NeighbourBuffers(builder, batchSize);
      WireNeighbours(nextActivation, nextActivationDeltas, nextStateDeltas, previousState);
    }

    /** The three backward invocations of `initializeBackward` over the given buffers and
        this cell's own delta buffers, in the order the kernels read them. */
    ghost predicate BackwardBuilt(builder: InvocationBuilder, values: seq<Value>, batchSize: int, weights: Buffer, state: Buffer,
                                  activation: Buffer, nextActivation: Buffer, nextActivationDeltas: Buffer,
                                  nextStateDeltas: Buffer, previousState: Buffer)
      reads this
    {
      && weightsDeltasBuffer.Some? && biasesDeltasBuffer.Some? && stateDeltasBuffer.Some? && activationDeltasBuffer.Some?
      && backwardActivationsInvocation == Some(CreateInvocation("lstm_backward_activations",
           [builder.outputDeltasBuffer, weights, activation, nextActivation, activationDeltasBuffer.value,
            nextActivationDeltas, state, stateDeltasBuffer.value, previousState, nextStateDeltas],
           values, unitCount, batchSize, 1))
      && backwardWeightsInvocation == Some(CreateInvocation("lstm_backward_weights",
           [builder.inputBuffer, state, weightsDeltasBuffer.value, biasesDeltasBuffer.value,
            activationDeltasBuffer.value, nextActivationDeltas],
           values, unitCount, 1, 1))
      && backwardInputsInvocation == Some(CreateInvocation("lstm_backward_inputs",
           [builder.inputDeltasBuffer, weights, activationDeltasBuffer.value],
           values, inputSize, batchSize, 1))
    }

    /** The part of `initializeBackward` after the neighbours are wired: the weight and
        bias delta buffers, this cell's own delta buffers, and the three invocations. */
    method BuildBackward(builder: InvocationBuilder, values: seq<Value>, batchSize: int, weights: Buffer, state: Buffer,
                         activation: Buffer, nextActivation: Buffer, nextActivationDeltas: Buffer,
                         nextStateDeltas: Buffer, previousState: Buffer)
      modifies this`weightsDeltasBuffer, this`biasesDeltasBuffer, this`stateDeltasBuffer, this`activationDeltasBuffer
      modifies this`backwardActivationsInvocation, this`backwardWeightsInvocation, this`backwardInputsInvocation
      modifies builder`nextSerial
      ensures old(builder.nextSerial) <= builder.nextSerial
      ensures BackwardBuilt(builder, values, batchSize, weights, state, activation, nextActivation, nextActivationDeltas,
                            nextStateDeltas, previousState)
      ensures DeltasCreated(old(builder.nextSerial), builder.nextSerial)
      ensures old(stateDeltasBuffer).Some? ==> stateDeltasBuffer == old(stateDeltasBuffer)
      ensures old(stateDeltasBuffer).None? ==>
                CreatedAs(stateDeltasBuffer.value, "state deltas", StateBytes(batchSize), old(builder.nextSerial), builder.nextSerial)
      ensures old(activationDeltasBuffer).Some? ==> activationDeltasBuffer == old(activationDeltasBuffer)
      ensures old(activationDeltasBuffer).None? ==>
                CreatedAs(activationDeltasBuffer.value, "activation deltas", ActivationBytes(batchSize),
                          old(builder.nextSerial), builder.nextSerial)
    {
      var wd := builder.CreateBuffer("weights deltas", 4 * unitCount * (inputSize + unitCount) * FloatSize);
      var bd := builder.CreateBuffer("biases deltas", 4 * unitCount * FloatSize);
      OwnDeltas(builder, batchSize);
      weightsDeltasBuffer, biasesDeltasBuffer := Some(wd), Some(bd);
      var activationDeltas, stateDeltas := activationDeltasBuffer.value, stateDeltasBuffer.value;
      backwardActivationsInvocation := Some(CreateInvocation("lstm_backward_activations",
        [builder.outputDeltasBuffer, weights, activation, nextActivation, activationDeltas, nextActivationDeltas,
         state, stateDeltas, previousState, nextStateDeltas],
        values, unitCount, batchSize, 1));
      backwardWeightsInvocation := Some(CreateInvocation("lstm_backward_weights",
        [builder.inputBuffer, state, wd, bd, activationDeltas, nextActivationDeltas],
        values, unitCount, 1, 1));
      backwardInputsInvocation := Some(CreateInvocation("lstm_backward_inputs",
        [builder.inputDeltasBuffer, weights, activationDeltas],
        values, inputSize, batchSize, 1));
    }

    /** The successful path of `initializeBackward`, once the forward buffers and the
        parameters are known. */
    method HandOverAndBuild(builder: InvocationBuilder, batchSize: int, values: seq<Value>,
                            weights: Buffer, state: Buffer, activation: Buffer)
      requires weightsBuffer == Some(weights)
      modifies this`weightsDeltasBuffer, this`biasesDeltasBuffer, this`stateDeltasBuffer, this`activationDeltasBuffer
      modifies this`backwardActivationsInvocation, this`backwardWeightsInvocation, this`backwardInputsInvocation
      modifies Next()`activationBuffer, Next()`activationDeltasBuffer, Next()`stateDeltasBuffer, Previous()`stateBuffer
      modifies builder`nextSerial
      ensures old(builder.nextSerial) <= builder.nextSerial
      ensures
                exists nextActivation, nextActivationDeltas, nextStateDeltas, previousState ::
                  BackwardBuilt(builder, values, batchSize, weights, state,
                                activation, nextActivation, nextActivationDeltas, nextStateDeltas, previousState)
                  && TakenOrCreated(nextActivation, old(if nextNode == null then None else nextNode.activationBuffer),
                                    "activation", ActivationBytes(batchSize),
                                    old(builder.nextSerial), builder.nextSerial)
                  && TakenOrCreated(nextActivationDeltas, old(if nextNode == null then None else nextNode.activationDeltasBuffer),
                                    "activation deltas", ActivationBytes(batchSize),
                                    old(builder.nextSerial), builder.nextSerial)
                  && TakenOrCreated(nextStateDeltas, old(if nextNode == null then None else nextNode.stateDeltasBuffer),
                                    "state deltas", StateBytes(batchSize),
                                    old(builder.nextSerial), builder.nextSerial)
                  && TakenOrCreated(previousState, old(if previousNode == null then None else previousNode.stateBuffer),
                                    "state", StateBytes(batchSize),
                                    old(builder.nextSerial), builder.nextSerial)
                  && (nextNode != null ==>
                        nextNode.activationBuffer == Some(nextActivation)
                        && nextNode.activationDeltasBuffer == Some(nextActivationDeltas)
                        && nextNode.stateDeltasBuffer == Some(nextStateDeltas))
                  && (previousNode != null ==> previousNode.stateBuffer == Some(previousState))
      ensures DeltasCreated(old(builder.nextSerial), builder.nextSerial)
      ensures EncodeParametersUpdate().Ok? <==> biasesBuffer.Some?
    {
      var nextActivation, nextActivationDeltas, nextStateDeltas, previousState := ShareWithNeighbours(builder, batchSize);
      ghost var shared := builder.nextSerial;
      BuildBackward(builder, values, batchSize, weights, state, activation, nextActivation, nextActivationDeltas,
                    nextStateDeltas, previousState);
      DeltasCreatedWiden(old(builder.nextSerial), shared, builder.nextSerial);
      assert BackwardBuilt(builder, values, batchSize, weights, state, activation, nextActivation, nextActivationDeltas,
                           nextStateDeltas, previousState);
    }

    /** Buffers created from serial `from` on were also created from any earlier serial on. */
    lemma DeltasCreatedWiden(earlier: nat, from: nat, bound: nat)
      requires earlier <= from && DeltasCreated(from, bound)
      ensures DeltasCreated(earlier, bound)
    {
    }

    /** `initializeBackward`: requires the forward initialisation's buffers, takes (or
        creates) the neighbours' buffers it reads, hands them to the neighbours, creates
        its delta buffers and builds the three backward invocations. The conversions
        that trap are reported before anything changes. */
    method InitializeBackward(builder: InvocationBuilder, batchSize: int) returns (r: Result<()>)
      modifies this`weightsDeltasBuffer, this`biasesDeltasBuffer, this`stateDeltasBuffer, this`activationDeltasBuffer
      modifies this`backwardActivationsInvocation, this`backwardWeightsInvocation, this`backwardInputsInvocation
      modifies Next()`activationBuffer, Next()`activationDeltasBuffer, Next()`stateDeltasBuffer, Previous()`stateBuffer
      modifies builder`nextSerial
      ensures r.Ok? <==> old(weightsBuffer.Some? && stateBuffer.Some? && activationBuffer.Some?) && old(Values(batchSize)).Ok?
      ensures old(weightsBuffer.None? || stateBuffer.None? || activationBuffer.None?) ==> r == Fatal(OrderReason)
      ensures r.Fatal? ==> unchanged(this) && unchanged(Next()) && unchanged(Previous()) && builder.nextSerial == old(builder.nextSerial)
      ensures r.Ok? ==> old(builder.nextSerial) <= builder.nextSerial
      ensures r.Ok? ==>
                exists nextActivation, nextActivationDeltas, nextStateDeltas, previousState ::
                  BackwardBuilt(builder, old(Values(batchSize)).value, batchSize, old(weightsBuffer).value, old(stateBuffer).value,
                                old(activationBuffer).value, nextActivation, nextActivationDeltas, nextStateDeltas, previousState)
                  && TakenOrCreated(nextActivation, old(if nextNode == null then None else nextNode.activationBuffer),
                                    "activation", ActivationBytes(batchSize),
                                    old(builder.nextSerial), builder.nextSerial)
                  && TakenOrCreated(nextActivationDeltas, old(if nextNode == null then None else nextNode.activationDeltasBuffer),
                                    "activation deltas", ActivationBytes(batchSize),
                                    old(builder.nextSerial), builder.nextSerial)
                  && TakenOrCreated(nextStateDeltas, old(if nextNode == null then None else nextNode.stateDeltasBuffer),
                                    "state deltas", StateBytes(batchSize),
                                    old(builder.nextSerial), builder.nextSerial)
                  && TakenOrCreated(previousState, old(if previousNode == null then None else previousNode.stateBuffer),
                                    "state", StateBytes(batchSize),
                                    old(builder.nextSerial), builder.nextSerial)
                  && (nextNode != null ==>
                        nextNode.activationBuffer == Some(nextActivation)
                        && nextNode.activationDeltasBuffer == Some(nextActivationDeltas)
                        && nextNode.stateDeltasBuffer == Some(nextStateDeltas))
                  && (previousNode != null ==> previousNode.stateBuffer == Some(previousState))
      ensures r.Ok? ==> DeltasCreated(old(builder.nextSerial), builder.nextSerial)
      ensures r.Ok? ==> (EncodeParametersUpdate().Ok? <==> biasesBuffer.Some?)
    {
      if weightsBuffer.None? || stateBuffer.None? || activationBuffer.None? {
        return Fatal(OrderReason);
      }
      var weights, state, activation := weightsBuffer.value, stateBuffer.value, activationBuffer.value;
      var values := Values(batchSize);
      if values.Fatal? {
        return Fatal(values.reason);
      }
      HandOverAndBuild(builder, batchSize, values.value, weights, state, activation);
      r := Ok(());
    }
  }
}
