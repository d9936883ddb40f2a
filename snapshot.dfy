/** The data snapshot of a forward-backward pass (Source/Snapshot.swift): lookups
    from network buffers and layers to views of the Metal buffers a run filled. */
module Snapshots {
  import opened Outcomes
  import opened NetNodes
  import opened NetBuffers
  import opened Scheduling
  import opened MetalUtilities

  /** The network and the Metal buffers of each pass, keyed by network buffer id. */
  datatype Snapshot = Snapshot(
    net: NetGraph,
    forwardBuffers: map<Uuid, MetalBuffer>,
    backwardBuffers: map<Uuid, MetalBuffer>)

  /** `init(net:forwardBuffers:)`: the backward map defaults to empty. */
  function NewSnapshot(net: NetGraph, forwardBuffers: map<Uuid, MetalBuffer>): (s: Snapshot)
    ensures s.net == net && s.forwardBuffers == forwardBuffers && s.backwardBuffers == map[]
  {
    Snapshot(net, forwardBuffers, map[])
  }

  /** `contentsOfForwardBuffer(_: NetBuffer)`. */
  function ContentsOfForwardBuffer(s: Snapshot, buffer: NetBuffer): (r: Option<BufferPointer>)
    ensures r.None? <==> buffer.id !in s.forwardBuffers
    ensures r.Some? ==> r.value == UnsafeBufferPointerFromBuffer(s.forwardBuffers[buffer.id])
  {
    if buffer.id in s.forwardBuffers then Some(UnsafeBufferPointerFromBuffer(s.forwardBuffers[buffer.id])) else None
  }

  /** `contentsOfBackwardBuffer(_: NetBuffer)`. */
  function ContentsOfBackwardBuffer(s: Snapshot, buffer: NetBuffer): (r: Option<BufferPointer>)
    ensures r.None? <==> buffer.id !in s.backwardBuffers
    ensures r.Some? ==> r.value == UnsafeBufferPointerFromBuffer(s.backwardBuffers[buffer.id])
  {
    if buffer.id in s.backwardBuffers then Some(UnsafeBufferPointerFromBuffer(s.backwardBuffers[buffer.id])) else None
  }

  /** `contentsOfForwardBuffer(_: Net.BufferID)`: nil when the net has no buffer under `ref`. */
  function ContentsOfForwardBufferRef(s: Snapshot, ref: BufferRef): (r: Option<BufferPointer>)
    ensures ref !in s.net.buffers ==> r.None?
    ensures ref in s.net.buffers ==> r == ContentsOfForwardBuffer(s, s.net.buffers[ref])
  {
    if ref in s.net.buffers then ContentsOfForwardBuffer(s, s.net.buffers[ref]) else None
  }

  /** `contentsOfBackwardBuffer(_: Net.BufferID)`. */
  function ContentsOfBackwardBufferRef(s: Snapshot, ref: BufferRef): (r: Option<BufferPointer>)
    ensures ref !in s.net.buffers ==> r.None?
    ensures ref in s.net.buffers ==> r == ContentsOfBackwardBuffer(s, s.net.buffers[ref])
  {
    if ref in s.net.buffers then ContentsOfBackwardBuffer(s, s.net.buffers[ref]) else None
  }

  /** `net.nodeForLayer`: the node registered for the layer's id. */
  function NodeForLayer(net: NetGraph, layer: Layer): Option<NetNode> {
    if layer.id in net.nodes then Some(net.nodes[layer.id]) else None
  }

  /** What Swift reports when a buffer pointer is made with a negative count. */
  const NegativeCountReason := "UnsafeMutableBufferPointer with negative count"

  /** The view a layer lookup returns: from the node's range lower bound to the end of
      the Metal buffer. A lower bound past the end gives a negative count, which
      `UnsafeMutableBufferPointer(start:count:)` refuses. */
  function SliceFrom(buffer: MetalBuffer, range: ClosedRange): (r: Result<BufferPointer>)
    ensures r.Fatal? <==> range.lowerBound > buffer.length / FloatSize
    ensures r.Fatal? ==> r.reason == NegativeCountReason
    ensures r.Ok? ==> r.value.base == buffer && r.value.start == range.lowerBound && 0 <= r.value.count
                      && r.value.start + r.value.count == buffer.length / FloatSize
  {
    var count := buffer.length / FloatSize - range.lowerBound;
    if count < 0 then Fatal(NegativeCountReason) else Ok(BufferPointer(buffer, range.lowerBound, count))
  }

  /** Which side of a node a lookup reads and which pass's buffers it uses. */
  datatype Side = InputSide | OutputSide
  datatype Pass = ForwardPass | BackwardPass

  function NodeBuffer(net: NetGraph, node: NetNode, side: Side): Option<NetBuffer> {
    match side
    case InputSide => InputBufferOf(net, node)
    case OutputSide => OutputBufferOf(net, node)
  }

  function NodeRange(node: NetNode, side: Side): ClosedRange {
    match side
    case InputSide => node.inputRange
    case OutputSide => node.outputRange
  }

  function PassBuffers(s: Snapshot, pass: Pass): map<Uuid, MetalBuffer> {
    match pass
    case ForwardPass => s.forwardBuffers
    case BackwardPass => s.backwardBuffers
  }

  /** The guard chain shared by the four layer lookups: the layer's node, that node's
      buffer on `side`, and the Metal buffer of `pass` for it; then the slice from the
      node's range on that side, which traps when the range starts past the buffer's end. */
  function LayerContents(s: Snapshot, layer: Layer, side: Side, pass: Pass): (r: Result<Option<BufferPointer>>)
    ensures r.Ok? && r.value.None? <==>
              layer.id !in s.net.nodes
              || NodeBuffer(s.net, s.net.nodes[layer.id], side).None?
              || NodeBuffer(s.net, s.net.nodes[layer.id], side).value.id !in PassBuffers(s, pass)
    ensures r.Fatal? ==> r.reason == NegativeCountReason
    ensures r.Fatal? || r.value.Some? ==>
              var node := s.net.nodes[layer.id];
              var mtl := PassBuffers(s, pass)[NodeBuffer(s.net, node, side).value.id];
              && (r.Fatal? <==> NodeRange(node, side).lowerBound > mtl.length / FloatSize)
              && (r.Ok? ==>
                    && r.value.value.base == mtl
                    && r.value.value.start == NodeRange(node, side).lowerBound
                    && 0 <= r.value.value.count
                    && r.value.value.start + r.value.value.count == mtl.length / FloatSize)
  {
    match NodeForLayer(s.net, layer)
    case None => Ok(None)
    case Some(node) =>
      match NodeBuffer(s.net, node, side)
      case None => Ok(None)
      case Some(buffer) =>
        if buffer.id !in PassBuffers(s, pass) then Ok(None)
        else
          match SliceFrom(PassBuffers(s, pass)[buffer.id], NodeRange(node, side))
          case Fatal(reason) => Fatal(reason)
          case Ok(p) => Ok(Some(p))
  }

  /** `outputOfLayer`: the forward contents of the node's output buffer, from its output range on. */
  function OutputOfLayer(s: Snapshot, layer: Layer): (r: Result<Option<BufferPointer>>)
    ensures r.Ok? && r.value.None? <==>
              layer.id !in s.net.nodes
              || OutputBufferOf(s.net, s.net.nodes[layer.id]).None?
              || OutputBufferOf(s.net, s.net.nodes[layer.id]).value.id !in s.forwardBuffers
    ensures r.Fatal? ==> r.reason == NegativeCountReason
    ensures r.Fatal? || r.value.Some? ==>
              var node := s.net.nodes[layer.id];
              var mtl := s.forwardBuffers[OutputBufferOf(s.net, node).value.id];
              && (r.Fatal? <==> node.outputRange.lowerBound > mtl.length / FloatSize)
              && (r.Ok? ==>
                    r.value.value.base == mtl && r.value.value.start == node.outputRange.lowerBound
                    && 0 <= r.value.value.count && r.value.value.start + r.value.value.count == mtl.length / FloatSize)
  {
    LayerContents(s, layer, OutputSide, ForwardPass)
  }

  /** `inputOfLayer`: the forward contents of the node's input buffer, from its input range on. */
  function InputOfLayer(s: Snapshot, layer: Layer): (r: Result<Option<BufferPointer>>)
    ensures r.Ok? && r.value.None? <==>
              layer.id !in s.net.nodes
              || InputBufferOf(s.net, s.net.nodes[layer.id]).None?
              || InputBufferOf(s.net, s.net.nodes[layer.id]).value.id !in s.forwardBuffers
    ensures r.Fatal? ==> r.reason == NegativeCountReason
    ensures r.Fatal? || r.value.Some? ==>
              var node := s.net.nodes[layer.id];
              var mtl := s.forwardBuffers[InputBufferOf(s.net, node).value.id];
              && (r.Fatal? <==> node.inputRange.lowerBound > mtl.length / FloatSize)
              && (r.Ok? ==>
                    r.value.value.base == mtl && r.value.value.start == node.inputRange.lowerBound
                    && 0 <= r.value.value.count && r.value.value.start + r.value.value.count == mtl.length / FloatSize)
  {
    LayerContents(s, layer, InputSide, ForwardPass)
  }

  /** `inputDeltasOfLayer`: the backward contents of the node's input buffer. */
  function InputDeltasOfLayer(s: Snapshot, layer: Layer): (r: Result<Option<BufferPointer>>)
    ensures r.Ok? && r.value.None? <==>
              layer.id !in s.net.nodes
              || InputBufferOf(s.net, s.net.nodes[layer.id]).None?
              || InputBufferOf(s.net, s.net.nodes[layer.id]).value.id !in s.backwardBuffers
    ensures r.Fatal? ==> r.reason == NegativeCountReason
    ensures r.Fatal? || r.value.Some? ==>
              var node := s.net.nodes[layer.id];
              var mtl := s.backwardBuffers[InputBufferOf(s.net, node).value.id];
              && (r.Fatal? <==> node.inputRange.lowerBound > mtl.length / FloatSize)
              && (r.Ok? ==>
                    r.value.value.base == mtl && r.value.value.start == node.inputRange.lowerBound
                    && 0 <= r.value.value.count && r.value.value.start + r.value.value.count == mtl.length / FloatSize)
  {
    LayerContents(s, layer, InputSide, BackwardPass)
  }

  /** `outputDeltasOfLayer`: the backward contents of the node's output buffer. */
  function OutputDeltasOfLayer(s: Snapshot, layer: Layer): (r: Result<Option<BufferPointer>>)
    ensures r.Ok? && r.value.None? <==>
              layer.id !in s.net.nodes
              || OutputBufferOf(s.net, s.net.nodes[layer.id]).None?
              || OutputBufferOf(s.net, s.net.nodes[layer.id]).value.id !in s.backwardBuffers
    ensures r.Fatal? ==> r.reason == NegativeCountReason
    ensures r.Fatal? || r.value.Some? ==>
              var node := s.net.nodes[layer.id];
              var mtl := s.backwardBuffers[OutputBufferOf(s.net, node).value.id];
              && (r.Fatal? <==> node.outputRange.lowerBound > mtl.length / FloatSize)
              && (r.Ok? ==>
                    r.value.value.base == mtl && r.value.value.start == node.outputRange.lowerBound
                    && 0 <= r.value.value.count && r.value.value.start + r.value.value.count == mtl.length / FloatSize)
  {
    LayerContents(s, layer, OutputSide, BackwardPass)
  }

  /** A snapshot built from forward buffers only answers nil to every backward lookup. */
  lemma ForwardOnlySnapshot(net: NetGraph, forwardBuffers: map<Uuid, MetalBuffer>, layer: Layer, buffer: NetBuffer, ref: BufferRef)
    ensures ContentsOfBackwardBuffer(NewSnapshot(net, forwardBuffers), buffer).None?
    ensures ContentsOfBackwardBufferRef(NewSnapshot(net, forwardBuffers), ref).None?
    ensures InputDeltasOfLayer(NewSnapshot(net, forwardBuffers), layer) == Ok(None)
    ensures OutputDeltasOfLayer(NewSnapshot(net, forwardBuffers), layer) == Ok(None)
  {
  }

  /** A layer lookup whose node starts at offset 0 of a buffer the pass holds sees the
      whole buffer, the same values `contentsOfForwardBuffer` sees, and never traps. */
  lemma OutputAtOffsetZero(s: Snapshot, layer: Layer)
    requires layer.id in s.net.nodes
    requires s.net.nodes[layer.id].outputRange.lowerBound == 0
    requires OutputBufferOf(s.net, s.net.nodes[layer.id]).Some?
    ensures OutputOfLayer(s, layer) == Ok(ContentsOfForwardBuffer(s, OutputBufferOf(s.net, s.net.nodes[layer.id]).value))
  {
  }

  /** A layer lookup that succeeds on a valid buffer is in bounds whenever its range starts
      at a non-negative offset, and sees the buffer's values from there to the end. */
  lemma LayerContentsInBounds(s: Snapshot, layer: Layer, side: Side, pass: Pass)
    requires LayerContents(s, layer, side, pass).Ok? && LayerContents(s, layer, side, pass).value.Some?
    requires LayerContents(s, layer, side, pass).value.value.base.Valid()
    requires 0 <= LayerContents(s, layer, side, pass).value.value.start
    ensures LayerContents(s, layer, side, pass).value.value.InBounds()
    ensures Elements(LayerContents(s, layer, side, pass).value.value)
            == LayerContents(s, layer, side, pass).value.value.base.contents[LayerContents(s, layer, side, pass).value.value.start..]
  {
  }
}
