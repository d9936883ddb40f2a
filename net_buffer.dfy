/** The buffer between layers of a network definition and its size rules
    (Source/NetBuffer.swift), and the table of buffers and nodes the runtime
    resolves references through. */
module NetBuffers {
  import opened Outcomes
  import opened NetNodes

  type Uuid = nat

  /** The trap messages, without the layer type and the sizes Swift puts into them. */
  const ProducerReason := "Cannot costruct buffer from layer"
  const ConsumerReason := "Cannot costruct buffer from layer"
  const MismatchReason := "Incompatible input and output sizes."

  /** A buffer: the nodes writing into it (`inputNodes`) and the nodes reading from it (`outputNodes`). */
  datatype NetBuffer = NetBuffer(
    id: Uuid,
    name: Option<string>,
    inputNodes: seq<NetNode>,
    outputNodes: seq<NetNode>)

  /** The network's buffer and node tables, keyed by the references the source hands out. */
  datatype NetGraph = NetGraph(buffers: map<BufferRef, NetBuffer>, nodes: map<LayerId, NetNode>)

  /** A node may write into a buffer when it is a forward or a data layer. */
  predicate IsProducer(n: NetNode) {
    n.layer.isForward || n.layer.isData
  }

  /** A node may read from a buffer when it is a forward or a sink layer. */
  predicate IsConsumer(n: NetNode) {
    n.layer.isForward || n.layer.isSink
  }

  predicate AllProducers(s: seq<NetNode>) {
    forall i | 0 <= i < |s| :: IsProducer(s[i])
  }

  predicate AllConsumers(s: seq<NetNode>) {
    forall i | 0 <= i < |s| :: IsConsumer(s[i])
  }

  /** Reference sums, written independently of the folds below. */
  function SumOutputSizes(s: seq<NetNode>): int {
    if s == [] then 0 else NetNodes.OutputSize(s[0]) + SumOutputSizes(s[1..])
  }

  function SumInputSizes(s: seq<NetNode>): int {
    if s == [] then 0 else NetNodes.InputSize(s[0]) + SumInputSizes(s[1..])
  }

  /** `inputNodes.reduce(acc) { ... }`: adds each producer's output size, trapping at the first node that is neither a forward nor a data layer. */
  function ProducerFold(acc: int, s: seq<NetNode>): Result<int>
    decreases |s|
  {
    if s == [] then Ok(acc)
    else if s[0].layer.isForward then ProducerFold(acc + s[0].layer.outputSize, s[1..])
    else if s[0].layer.isData then ProducerFold(acc + s[0].layer.outputSize, s[1..])
    else Fatal(ProducerReason)
  }

  /** `outputNodes.reduce(acc) { ... }`: adds each consumer's input size, trapping at the first node that is neither a forward nor a sink layer. */
  function ConsumerFold(acc: int, s: seq<NetNode>): Result<int>
    decreases |s|
  {
    if s == [] then Ok(acc)
    else if s[0].layer.isForward then ConsumerFold(acc + s[0].layer.inputSize, s[1..])
    else if s[0].layer.isSink then ConsumerFold(acc + s[0].layer.inputSize, s[1..])
    else Fatal(ConsumerReason)
  }

  lemma {:induction false} ProducerFoldIsSum(acc: int, s: seq<NetNode>)
    ensures ProducerFold(acc, s) == if AllProducers(s) then Ok(acc + SumOutputSizes(s)) else Fatal(ProducerReason)
    decreases |s|
  {
    if s != [] {
      ProducerFoldIsSum(acc + s[0].layer.outputSize, s[1..]);
      assert AllProducers(s) <==> IsProducer(s[0]) && AllProducers(s[1..]) by {
        if IsProducer(s[0]) && AllProducers(s[1..]) {
          forall i | 0 <= i < |s| ensures IsProducer(s[i]) {
            if i > 0 { assert s[i] == s[1..][i - 1]; }
          }
        }
      }
    }
  }

  lemma {:induction false} ConsumerFoldIsSum(acc: int, s: seq<NetNode>)
    ensures ConsumerFold(acc, s) == if AllConsumers(s) then Ok(acc + SumInputSizes(s)) else Fatal(ConsumerReason)
    decreases |s|
  {
    if s != [] {
      ConsumerFoldIsSum(acc + s[0].layer.inputSize, s[1..]);
      assert AllConsumers(s) <==> IsConsumer(s[0]) && AllConsumers(s[1..]) by {
        if IsConsumer(s[0]) && AllConsumers(s[1..]) {
          forall i | 0 <= i < |s| ensures IsConsumer(s[i]) {
            if i > 0 { assert s[i] == s[1..][i - 1]; }
          }
        }
      }
    }
  }

  /** `inputSize`: the total the producers write. */
  function InputSize(b: NetBuffer): (r: Result<int>)
    ensures r.Ok? <==> AllProducers(b.inputNodes)
    ensures r.Ok? ==> r.value == SumOutputSizes(b.inputNodes)
    ensures b.inputNodes == [] ==> r == Ok(0)
  {
    ProducerFoldIsSum(0, b.inputNodes);
    ProducerFold(0, b.inputNodes)
  }

  /** `outputSize`: the total the consumers read. */
  function OutputSize(b: NetBuffer): (r: Result<int>)
    ensures r.Ok? <==> AllConsumers(b.outputNodes)
    ensures r.Ok? ==> r.value == SumInputSizes(b.outputNodes)
    ensures b.outputNodes == [] ==> r == Ok(0)
  {
    ConsumerFoldIsSum(0, b.outputNodes);
    ConsumerFold(0, b.outputNodes)
  }

  /** `size`: both sides must agree; the agreed total is the buffer's size. */
  function Size(b: NetBuffer): (r: Result<int>)
    ensures r.Ok? <==> AllProducers(b.inputNodes) && AllConsumers(b.outputNodes)
                       && SumOutputSizes(b.inputNodes) == SumInputSizes(b.outputNodes)
    ensures r.Ok? ==> r.value == SumOutputSizes(b.inputNodes) == SumInputSizes(b.outputNodes)
  {
    match InputSize(b)
    case Fatal(reason) => Fatal(reason)
    case Ok(inputSize) =>
      match OutputSize(b)
      case Fatal(reason) => Fatal(reason)
      case Ok(outputSize) =>
        if inputSize == outputSize then Ok(inputSize) else Fatal(MismatchReason)
  }

  /** `==` on buffers: the same id. `hashValue` hashes the id alone, so equal buffers
      hash equally, as `Hashable` requires. */
  predicate SameBuffer(a: NetBuffer, b: NetBuffer) {
    a.id == b.id
  }
}
