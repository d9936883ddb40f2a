/** The per-run bookkeeping of Source/Instance.swift: which nodes are open
    (waiting to run), closed (dispatched) and finished (completed), in both
    directions. Buffer allocation in `init` is not modelled. */
module Instances {
  import opened Outcomes
  import opened NetNodes
  import opened NetBuffers
  import opened Scheduling

  /** `openNodes.contains(node)`: a node equal (by key) to `n` is in `s`. */
  function ContainsNode(s: seq<NetNode>, n: NetNode): (r: bool)
    ensures r <==> exists i :: 0 <= i < |s| && s[i].Key() == n.Key()
    ensures r <==> n.Key() in Keys(s)
    decreases |s|
  {
    if s == [] then false
    else
      assert forall i :: 0 < i < |s| ==> s[i] == s[1..][i - 1];
      s[0].Key() == n.Key() || ContainsNode(s[1..], n)
  }

  class Instance {
    const batchSize: int
    var openNodes: seq<NetNode>
    var closedNodes: set<LayerId>
    var finishedNodes: set<LayerId>

    constructor(batchSize: int)
      ensures this.batchSize == batchSize
      ensures openNodes == [] && closedNodes == {} && finishedNodes == {}
    {
      this.batchSize := batchSize;
      openNodes := [];
      closedNodes := {};
      finishedNodes := {};
    }

    function IsOpen(n: NetNode): (r: bool)
      reads this
      ensures r <==> exists i :: 0 <= i < |openNodes| && openNodes[i].Key() == n.Key()
    {
      ContainsNode(openNodes, n)
    }

    predicate IsClosed(n: NetNode)
      reads this
    {
      n.Key() in closedNodes
    }

    predicate IsFinished()
      reads this
    {
      openNodes == [] && closedNodes == finishedNodes
    }

    method Reset()
      modifies this
      ensures openNodes == [] && closedNodes == {} && finishedNodes == {}
      ensures IsFinished()
    {
      openNodes := [];
      closedNodes := {};
      finishedNodes := {};
    }

    /** `allInputsClosed`: no input buffer, or every producer of it is closed. */
    method AllInputsClosed(g: NetGraph, n: NetNode) returns (r: bool)
      ensures r == Ready(g, n, closedNodes, Forward)
      ensures InputBufferOf(g, n).None? ==> r
    {
      r := IsReady(g, n, closedNodes, Forward);
    }

    /** `allOutputsClosed`: no output buffer, or every consumer of it is closed. */
    method AllOutputsClosed(g: NetGraph, n: NetNode) returns (r: bool)
      ensures r == Ready(g, n, closedNodes, Backward)
      ensures OutputBufferOf(g, n).None? ==> r
    {
      r := IsReady(g, n, closedNodes, Backward);
    }

    /** `openOutputsOf`: append, in buffer order, the consumers whose inputs are all closed. */
    method OpenOutputsOf(g: NetGraph, n: NetNode)
      modifies this`openNodes
      ensures openNodes == old(openNodes) + Opened(g, n, closedNodes, Forward)
      ensures OutputBufferOf(g, n).None? ==> openNodes == old(openNodes)
    {
      match OutputBufferOf(g, n)
      case None =>
      case Some(buffer) =>
        var newOpenNodes := CollectReady(g, buffer.outputNodes, closedNodes, Forward);
        openNodes := openNodes + newOpenNodes;
    }

    /** `openInputsOf`: append, in buffer order, the producers whose outputs are all closed. */
    method OpenInputsOf(g: NetGraph, n: NetNode)
      modifies this`openNodes
      ensures openNodes == old(openNodes) + Opened(g, n, closedNodes, Backward)
      ensures InputBufferOf(g, n).None? ==> openNodes == old(openNodes)
    {
      match InputBufferOf(g, n)
      case None =>
      case Some(buffer) =>
        var newOpenNodes := CollectReady(g, buffer.inputNodes, closedNodes, Backward);
        openNodes := openNodes + newOpenNodes;
    }

    method CloseNode(n: NetNode)
      modifies this`closedNodes
      ensures closedNodes == old(closedNodes) + {n.Key()}
    {
      closedNodes := closedNodes + {n.Key()};
    }

    method FinishNode(n: NetNode)
      modifies this`finishedNodes
      ensures finishedNodes == old(finishedNodes) + {n.Key()}
    {
      finishedNodes := finishedNodes + {n.Key()};
    }
  }
}
