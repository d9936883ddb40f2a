/** Layers as the network sees them, and the network definition node
    (Source/NetNode.swift). */
module NetNodes {
  import opened Outcomes

  type LayerId = nat
  type BufferRef = nat

  /** A layer, reduced to the protocols it conforms to and the sizes it declares.
      `inputSize` and `outputSize` are the single properties that satisfy every
      protocol declaring them; `data` is what a data layer supplies. */
  datatype Layer = Layer(
    id: LayerId,
    isData: bool,
    isForward: bool,
    isSink: bool,
    isBackward: bool,
    isLoss: bool,
    inputSize: int,
    outputSize: int,
    data: seq<real>)

  /** Swift's closed range `lowerBound...upperBound`. */
  datatype ClosedRange = ClosedRange(lowerBound: int, upperBound: int)

  /** A definition node. Its buffers are handles into the network's buffer table;
      they are weak references in the source, so a handle may fail to resolve. */
  datatype NetNode = NetNode(
    layer: Layer,
    inputBuffer: Option<BufferRef>,
    inputRange: ClosedRange,
    outputBuffer: Option<BufferRef>,
    outputRange: ClosedRange)
  {
    /** The identity `==` and `hashValue` use, hence the identity of a node in a `Set<NetNode>`. */
    function Key(): LayerId {
      layer.id
    }
  }

  /** `NetNode(layer:)`: no buffers yet, both ranges `0...0`. */
  function NewNetNode(layer: Layer): (n: NetNode)
    ensures n.layer == layer && n.Key() == layer.id
    ensures n.inputBuffer.None? && n.outputBuffer.None?
    ensures n.inputRange.lowerBound == n.inputRange.upperBound == 0
    ensures n.outputRange.lowerBound == n.outputRange.upperBound == 0
  {
    NetNode(layer, None, ClosedRange(0, 0), None, ClosedRange(0, 0))
  }

  /** How many values the node consumes: a forward layer's input size, else a sink's, else 0. */
  function InputSize(n: NetNode): (s: int)
    ensures n.layer.isForward || n.layer.isSink ==> s == n.layer.inputSize
    ensures !n.layer.isForward && !n.layer.isSink ==> s == 0
  {
    if n.layer.isForward then n.layer.inputSize
    else if n.layer.isSink then n.layer.inputSize
    else 0
  }

  /** How many values the node produces: a forward layer's output size, else a data layer's, else 0. */
  function OutputSize(n: NetNode): (s: int)
    ensures n.layer.isForward || n.layer.isData ==> s == n.layer.outputSize
    ensures !n.layer.isForward && !n.layer.isData ==> s == 0
  {
    if n.layer.isForward then n.layer.outputSize
    else if n.layer.isData then n.layer.outputSize
    else 0
  }

  /** `==` on nodes: the same layer id, which is the node's key. `hashValue` hashes the
      layer id alone, so equal nodes hash equally, as `Hashable` requires. */
  predicate SameNode(a: NetNode, b: NetNode) {
    a.layer.id == b.layer.id
  }
}
