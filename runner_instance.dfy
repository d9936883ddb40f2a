/** The forward-only bookkeeping of Source/RunnerInstance.swift. Buffer
    allocation in `init` is not modelled. */
module RunnerInstances {
  import opened NetNodes
  import opened NetBuffers
  import opened Scheduling

  class RunnerInstance {
    var openNodes: seq<NetNode>
    var closedNodes: set<LayerId>
    var finishedNodes: set<LayerId>

    constructor()
      ensures openNodes == [] && closedNodes == {} && finishedNodes == {}
    {
      openNodes := [];
      closedNodes := {};
      finishedNodes := {};
    }

    method Reset()
      modifies this
      ensures openNodes == [] && closedNodes == {} && finishedNodes == {}
      ensures IsFinished()
    {
      openNodes := [];
      closedNodes := {};
      finishedNodes := {};
    }

    /** True without an input buffer; otherwise true when every producer of it is closed. */
    method IsNodeReady(g: NetGraph, n: NetNode) returns (r: bool)
      ensures r == Ready(g, n, closedNodes, Forward)
      ensures InputBufferOf(g, n).None? ==> r
    {
      r := IsReady(g, n, closedNodes, Forward);
    }

    /** Close `n`, then append the consumers of its output buffer that became ready. */
    method CloseNode(g: NetGraph, n: NetNode)
      modifies this`closedNodes, this`openNodes
      ensures closedNodes == old(closedNodes) + {n.Key()}
      ensures openNodes == old(openNodes) + Opened(g, n, closedNodes, Forward)
      ensures OutputBufferOf(g, n).None? ==> openNodes == old(openNodes)
    {
      closedNodes := closedNodes + {n.Key()};
      match OutputBufferOf(g, n)
      case None =>
      case Some(buffer) =>
        var newOpenNodes := CollectReady(g, buffer.outputNodes, closedNodes, Forward);
        openNodes := openNodes + newOpenNodes;
    }

    method FinishNode(n: NetNode)
      modifies this`finishedNodes
      ensures finishedNodes == old(finishedNodes) + {n.Key()}
    {
      finishedNodes := finishedNodes + {n.Key()};
    }

    predicate IsFinished()
      reads this
    {
      openNodes == [] && closedNodes == finishedNodes
    }
  }
}
