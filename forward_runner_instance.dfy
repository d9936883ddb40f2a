/** The forward pass of one run (Source/Runner/ForwardRunnerInstance.swift):
    the open/closed/finished bookkeeping and the worklist loop of `processNodes`.
    Encoding a layer into a Metal command buffer and the completion handler that
    finishes it later are not modelled; the loop reports the nodes it dispatched. */
module ForwardRunner {
  import opened Outcomes
  import opened NetNodes
  import opened NetBuffers
  import opened Scheduling

  class ForwardRunnerInstance {
    var openNodes: seq<NetNode>
    var closedNodes: set<LayerId>
    var finishedNodes: set<LayerId>
    var batchSize: int

    constructor(batchSize: int)
      ensures this.batchSize == batchSize
      ensures openNodes == [] && closedNodes == {} && finishedNodes == {}
    {
      this.batchSize := batchSize;
      openNodes := [];
      closedNodes := {};
      finishedNodes := {};
    }

    /** The nodes the loop dispatches: a forward layer. */
    static predicate Handles(n: NetNode) {
      Handled(n, Forward)
    }

    /** What the loop requires of a node before dispatching it: a forward layer with both buffers. */
    static predicate Dispatchable(g: NetGraph, n: NetNode) {
      Dispatches(g, n, Forward)
    }

    /** `processNodes`: pop the last open node; skip it when already closed or not a
        forward layer; trap when it lacks a buffer; otherwise dispatch and close it.
        `ok` is false when the loop trapped. */
    method ProcessNodes(g: NetGraph) returns (dispatched: seq<NetNode>, ok: bool,
                                        ghost popped: seq<NetNode>, ghost pushed: seq<seq<NetNode>>)
      modifies this`openNodes, this`closedNodes
      ensures ok ==> openNodes == []
      ensures Replay(g, old(openNodes), old(closedNodes), popped, Forward) == Some(LoopState(openNodes, dispatched))
      ensures closedNodes == old(closedNodes) + Keys(dispatched)
      ensures DispatchedOnce(dispatched, old(closedNodes), n => Dispatchable(g, n))
      ensures OpenedBy(g, dispatched, pushed, old(closedNodes), Forward)
      ensures multiset(old(openNodes)) + multiset(Concat(pushed)) == multiset(popped) + multiset(openNodes)
      ensures ok ==> Settled(popped, closedNodes)
      ensures !ok ==>
                && |popped| > 0
                && Settled(popped[..|popped| - 1], closedNodes)
                && Stuck(g, popped[|popped| - 1], closedNodes)
    {
      dispatched := [];
      ok := true;
      popped, pushed := [], [];
      ghost var universe := Keys(openNodes) + GraphKeys(g) + closedNodes;
      ghost var guard := n => Dispatchable(g, n);
      while openNodes != []
        invariant Keys(openNodes) <= universe && closedNodes <= universe
        invariant DispatchedOnce(dispatched, old(closedNodes), guard)
        invariant Trace(g, old(openNodes), old(closedNodes), openNodes, closedNodes, dispatched, pushed, popped)
        decreases universe - closedNodes, |openNodes|
      {
        var node := PopLast();
        if node.Key() in closedNodes || !Handles(node) {
          SkipStep(g, old(openNodes), old(closedNodes), openNodes, closedNodes, dispatched, pushed, popped, node);
          popped := popped + [node];
          continue;
        }
        if InputBufferOf(g, node).None? || OutputBufferOf(g, node).None? {
          StuckStep(g, old(openNodes), old(closedNodes), openNodes, closedNodes, dispatched, pushed, popped, node);
          popped := popped + [node];
          ok := false;
          return;
        }
        DispatchTraceStep(g, old(openNodes), old(closedNodes), openNodes, closedNodes, dispatched, pushed, popped, node);
        Dispatch(g, node, dispatched, old(closedNodes), guard);
        pushed := pushed + [Opened(g, node, closedNodes, Forward)];
        popped := popped + [node];
        dispatched := dispatched + [node];
      }
    }

    /** What the loop has done so far, from open list `open0` and closed set `closed0`:
        the closed set grew by the dispatched nodes, `pushed` lists what each of them
        opened, the nodes popped and still open are those initially open and those
        opened, and every node popped is closed or is not one the loop dispatches. */
    static predicate Trace(g: NetGraph, open0: seq<NetNode>, closed0: set<LayerId>, open: seq<NetNode>,
                           closed: set<LayerId>, dispatched: seq<NetNode>, pushed: seq<seq<NetNode>>,
                           popped: seq<NetNode>)
    {
      && closed == closed0 + Keys(dispatched)
      && OpenedBy(g, dispatched, pushed, closed0, Forward)
      && multiset(open0) + multiset(Concat(pushed)) == multiset(popped) + multiset(open)
      && Settled(popped, closed)
      && Replay(g, open0, closed0, popped, Forward) == Some(LoopState(open, dispatched))
    }

    /** Popping a node that is closed or not dispatched keeps the trace. */
    static lemma SkipStep(g: NetGraph, open0: seq<NetNode>, closed0: set<LayerId>, open: seq<NetNode>,
                          closed: set<LayerId>, dispatched: seq<NetNode>, pushed: seq<seq<NetNode>>,
                          popped: seq<NetNode>, node: NetNode)
      requires Trace(g, open0, closed0, open + [node], closed, dispatched, pushed, popped)
      requires node.Key() in closed || !Handles(node)
      ensures Trace(g, open0, closed0, open, closed, dispatched, pushed, popped + [node])
    {
      MoveBetween(multiset(open0), multiset(Concat(pushed)), multiset(popped), multiset(open), multiset{node});
      SettledStep(popped, node, closed, closed);
      ReplayStep(g, open0, closed0, popped, Forward, open, dispatched, node);
    }

    /** Popping a node the loop traps on: the balance holds, and every earlier node is settled. */
    static lemma StuckStep(g: NetGraph, open0: seq<NetNode>, closed0: set<LayerId>, open: seq<NetNode>,
                           closed: set<LayerId>, dispatched: seq<NetNode>, pushed: seq<seq<NetNode>>,
                           popped: seq<NetNode>, node: NetNode)
      requires Trace(g, open0, closed0, open + [node], closed, dispatched, pushed, popped)
      requires !Dispatchable(g, node)
      ensures multiset(open0) + multiset(Concat(pushed)) == multiset(popped + [node]) + multiset(open)
      ensures (popped + [node])[..|popped|] == popped && (popped + [node])[|popped|] == node
      ensures Replay(g, open0, closed0, popped + [node], Forward) == Some(LoopState(open, dispatched))
    {
      MoveBetween(multiset(open0), multiset(Concat(pushed)), multiset(popped), multiset(open), multiset{node});
      ReplayStep(g, open0, closed0, popped, Forward, open, dispatched, node);
    }

    /** Popping and dispatching a node that is not closed keeps the trace. */
    static lemma DispatchTraceStep(g: NetGraph, open0: seq<NetNode>, closed0: set<LayerId>, open: seq<NetNode>,
                                   closed: set<LayerId>, dispatched: seq<NetNode>, pushed: seq<seq<NetNode>>,
                                   popped: seq<NetNode>, node: NetNode)
      requires Trace(g, open0, closed0, open + [node], closed, dispatched, pushed, popped)
      requires node.Key() !in closed && Dispatchable(g, node)
      ensures var closed' := closed + {node.Key()};
              var next := Opened(g, node, closed', Forward);
              Trace(g, open0, closed0, open + next, closed', dispatched + [node], pushed + [next], popped + [node])
    {
      var closed' := closed + {node.Key()};
      var next := Opened(g, node, closed', Forward);
      KeysAppend(dispatched, [node]);
      assert [node][0] == node;
      assert Keys([node]) == {node.Key()};
      OpenedByStep(g, dispatched, pushed, closed0, Forward, node);
      ConcatAppend(pushed, next);
      MoveBetween(multiset(open0), multiset(Concat(pushed)), multiset(popped), multiset(open), multiset{node});
      BalanceStep(multiset(open0), multiset(Concat(pushed)), multiset(popped + [node]), multiset(open), multiset(next));
      SettledStep(popped, node, closed, closed');
      ReplayStep(g, open0, closed0, popped, Forward, open, dispatched, node);
    }

    /** A node the loop traps on: not closed, one it dispatches, and missing a buffer. */
    static predicate Stuck(g: NetGraph, n: NetNode, closed: set<LayerId>) {
      n.Key() !in closed && Handles(n) && (InputBufferOf(g, n).None? || OutputBufferOf(g, n).None?)
    }

    /** Every node of `s` is closed or is not one the loop dispatches. */
    static predicate Settled(s: seq<NetNode>, closed: set<LayerId>) {
      forall i | 0 <= i < |s| :: s[i].Key() in closed || !Handles(s[i])
    }

    static lemma SettledStep(s: seq<NetNode>, n: NetNode, closed: set<LayerId>, closed': set<LayerId>)
      requires Settled(s, closed) && closed <= closed'
      requires n.Key() in closed' || !Handles(n)
      ensures Settled(s + [n], closed')
    {
    }

    /** `openNodes.popLast()!`. */
    method PopLast() returns (node: NetNode)
      requires openNodes != []
      modifies this`openNodes
      ensures old(openNodes) == openNodes + [node]
      ensures Keys(old(openNodes)) == Keys(openNodes) + {node.Key()}
    {
      node := openNodes[|openNodes| - 1];
      openNodes := openNodes[..|openNodes| - 1];
      assert old(openNodes) == openNodes + [node];
      KeysAppend(openNodes, [node]);
      assert [node][0] == node;
    }

    /** The loop body for a node it dispatches: close it, opening its ready successors.
        `dispatched` is what the loop dispatched before this node. */
    method Dispatch(g: NetGraph, node: NetNode, ghost dispatched: seq<NetNode>,
                    ghost closedBefore: set<LayerId>, ghost guard: NetNode -> bool)
      requires guard(node) && node.Key() !in closedNodes
      requires closedNodes == closedBefore + Keys(dispatched)
      requires DispatchedOnce(dispatched, closedBefore, guard)
      modifies this`openNodes, this`closedNodes
      ensures openNodes == old(openNodes) + Opened(g, node, closedNodes, Forward)
      ensures closedNodes == old(closedNodes) + {node.Key()}
      ensures DispatchedOnce(dispatched + [node], closedBefore, guard)
      ensures Keys(openNodes) <= Keys(old(openNodes)) + GraphKeys(g)
    {
      CloseNode(g, node);
      OpenedInGraph(g, node, closedNodes, Forward);
      KeysAppend(old(openNodes), Opened(g, node, closedNodes, Forward));
      DispatchStep(dispatched, node, closedBefore, old(closedNodes), guard);
    }

    method Reset()
      modifies this`openNodes, this`closedNodes, this`finishedNodes
      ensures openNodes == [] && closedNodes == {} && finishedNodes == {}
      ensures IsFinished()
    {
      openNodes := [];
      closedNodes := {};
      finishedNodes := {};
    }

    /** True without an input buffer; otherwise true when every producer of it is closed. */
    method IsNodeReady(g: NetGraph, n: NetNode) returns (r: bool)
      ensures r == Ready(g, n, closedNodes, Forward)
      ensures InputBufferOf(g, n).None? ==> r
    {
      r := IsReady(g, n, closedNodes, Forward);
    }

    /** Close `n`, then append the consumers of its output buffer that became ready. */
    method CloseNode(g: NetGraph, n: NetNode)
      modifies this`closedNodes, this`openNodes
      ensures closedNodes == old(closedNodes) + {n.Key()}
      ensures openNodes == old(openNodes) + Opened(g, n, closedNodes, Forward)
      ensures OutputBufferOf(g, n).None? ==> openNodes == old(openNodes)
    {
      closedNodes := closedNodes + {n.Key()};
      match OutputBufferOf(g, n)
      case None =>
      case Some(buffer) =>
        var newOpenNodes := CollectReady(g, buffer.outputNodes, closedNodes, Forward);
        openNodes := openNodes + newOpenNodes;
    }

    method FinishNode(n: NetNode)
      modifies this`finishedNodes
      ensures finishedNodes == old(finishedNodes) + {n.Key()}
    {
      finishedNodes := finishedNodes + {n.Key()};
    }

    predicate IsFinished()
      reads this
    {
      openNodes == [] && closedNodes == finishedNodes
    }
  }
}
