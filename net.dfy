/** The layer graph of Source/Net.swift: layer registration with id allocation,
    connection, and the forward worklist that feeds each layer the concatenated
    outputs of its inputs. The layers' own arithmetic is a parameter (`apply`);
    a sink layer's input is left in its node, and what the sink does with it is
    not modelled. */
module Nets {
  import opened Outcomes
  import opened NetNodes

  type LayerRef = nat

  /** A graph node. Nodes refer to each other by id, the key of `Net.nodes`. */
  datatype Node = Node(
    layer: Layer,
    inputNodes: seq<LayerRef>,
    outputNodes: seq<LayerRef>,
    input: Option<seq<real>>,
    output: Option<seq<real>>)

  const NoKindReason := "Layer has to be one of: data, forward, sink"
  const DataForwardReason := "Layer can't be both a data layer and a forward layer"
  const SinkForwardReason := "Layer can't be both a sink layer and a forward layer"
  const DataSinkReason := "Layer can't be both a data layer and a sink layer"
  const NotFoundReason := "Layer not found"

  /** How many of the three kinds data, forward and sink a layer is. */
  function KindCount(l: Layer): nat {
    (if l.isData then 1 else 0) + (if l.isForward then 1 else 0) + (if l.isSink then 1 else 0)
  }

  /** `validateLayer`: the message of the first failing precondition, or None when the layer is valid. */
  function ValidateLayer(l: Layer): (r: Option<string>)
    ensures r.None? <==> KindCount(l) == 1
    ensures r == Some(NoKindReason) <==> KindCount(l) == 0
  {
    if !(l.isData || l.isForward || l.isSink) then Some(NoKindReason)
    else if l.isData && l.isForward then Some(DataForwardReason)
    else if l.isSink && l.isForward then Some(SinkForwardReason)
    else if l.isData && l.isSink then Some(DataSinkReason)
    else None
  }

  /** A freshly registered node: no connections, no data. */
  function NewNode(l: Layer): Node {
    Node(l, [], [], None, None)
  }

  /** Every id a node mentions is registered. */
  predicate Linked(nodes: map<LayerRef, Node>, n: Node) {
    (forall m | m in n.inputNodes :: m in nodes) && (forall m | m in n.outputNodes :: m in nodes)
  }

  /** Every node mentions registered ids only. */
  predicate AllLinked(nodes: map<LayerRef, Node>) {
    forall k {:trigger nodes[k]} | k in nodes :: Linked(nodes, nodes[k])
  }

  /** Every connection is recorded on both ends: `b` is among the outputs of `a`
      exactly when `a` is among the inputs of `b`. */
  predicate Symmetric(nodes: map<LayerRef, Node>) {
    forall a, b | a in nodes && b in nodes :: b in nodes[a].outputNodes <==> a in nodes[b].inputNodes
  }

  /** What registration and connection keep true of the graph. */
  predicate WellFormed(nodes: map<LayerRef, Node>, dataNodes: seq<LayerRef>, nextID: nat) {
    (forall k | k in nodes :: k < nextID && Linked(nodes, nodes[k]) && KindCount(nodes[k].layer) == 1)
    && Symmetric(nodes)
    && (forall k | k in dataNodes :: k in nodes && nodes[k].layer.isData)
    && (forall k | k in nodes && nodes[k].layer.isData :: k in dataNodes)
    && (forall i, j | 0 <= i < j < |dataNodes| :: dataNodes[i] != dataNodes[j])
  }

  /** Same ids, layers and connections; only the data held in the nodes may differ. */
  predicate SameShape(a: map<LayerRef, Node>, b: map<LayerRef, Node>) {
    a.Keys == b.Keys
    && forall k | k in a ::
         b[k].layer == a[k].layer && b[k].inputNodes == a[k].inputNodes && b[k].outputNodes == a[k].outputNodes
  }

  lemma SameShapeWellFormed(a: map<LayerRef, Node>, b: map<LayerRef, Node>, dataNodes: seq<LayerRef>, nextID: nat)
    requires SameShape(a, b) && WellFormed(a, dataNodes, nextID)
    ensures WellFormed(b, dataNodes, nextID)
  {
    forall k | k in b
      ensures k < nextID && Linked(b, b[k]) && KindCount(b[k].layer) == 1
    {
      assert Linked(a, a[k]);
    }
  }

  /** `connectLayer(a, toLayer: b)` on registered ids: `b` is appended to the outputs
      of `a` and `a` to the inputs of `b`; nothing else changes (also when `a == b`). */
  function Connect(nodes: map<LayerRef, Node>, a: LayerRef, b: LayerRef): (r: map<LayerRef, Node>)
    requires a in nodes && b in nodes
    ensures r.Keys == nodes.Keys
    ensures r[a].outputNodes == nodes[a].outputNodes + [b]
    ensures r[b].inputNodes == nodes[b].inputNodes + [a]
    ensures a != b ==> r[a].inputNodes == nodes[a].inputNodes && r[b].outputNodes == nodes[b].outputNodes
    ensures forall k | k in nodes :: r[k].layer == nodes[k].layer && r[k].input == nodes[k].input && r[k].output == nodes[k].output
    ensures forall k | k in nodes && k != a && k != b :: r[k] == nodes[k]
  {
    var withOutput := nodes[a := nodes[a].(outputNodes := nodes[a].outputNodes + [b])];
    withOutput[b := withOutput[b].(inputNodes := withOutput[b].inputNodes + [a])]
  }

  lemma ConnectWellFormed(nodes: map<LayerRef, Node>, dataNodes: seq<LayerRef>, nextID: nat, a: LayerRef, b: LayerRef)
    requires WellFormed(nodes, dataNodes, nextID) && a in nodes && b in nodes
    ensures WellFormed(Connect(nodes, a, b), dataNodes, nextID)
  {
    var r := Connect(nodes, a, b);
    forall k | k in r
      ensures Linked(r, r[k])
    {
      assert Linked(nodes, nodes[k]);
    }
    forall x, y | x in r && y in r
      ensures y in r[x].outputNodes <==> x in r[y].inputNodes
    {
      assert r[x].outputNodes == nodes[x].outputNodes + (if x == a then [b] else []);
      assert r[y].inputNodes == nodes[y].inputNodes + (if y == b then [a] else []);
    }
  }

  /** `isNodeReady`: every input node is closed. */
  predicate NodeReady(n: Node, closed: set<LayerRef>) {
    forall m | m in n.inputNodes :: m in closed
  }

  /** A registered node that is ready. */
  predicate ReadyIn(nodes: map<LayerRef, Node>, k: LayerRef, closed: set<LayerRef>) {
    k in nodes && NodeReady(nodes[k], closed)
  }

  /** `outputNodes.filter { isNodeReady($0) }`: the ready nodes among `refs`, in order. */
  function ReadyAmong(nodes: map<LayerRef, Node>, refs: seq<LayerRef>, closed: set<LayerRef>): (r: seq<LayerRef>)
    ensures |r| <= |refs|
    ensures forall x :: x in r <==> x in refs && ReadyIn(nodes, x, closed)
  {
    if refs == [] then []
    else
      var last := refs[|refs| - 1];
      ReadyAmong(nodes, refs[..|refs| - 1], closed) + (if ReadyIn(nodes, last, closed) then [last] else [])
  }

  /** The output a node holds; nil for an id that is not registered. */
  function OutputOf(nodes: map<LayerRef, Node>, k: LayerRef): Option<seq<real>> {
    if k in nodes then nodes[k].output else None
  }

  /** The concatenation, in `refs` order, of the outputs that are present. */
  function Gather(nodes: map<LayerRef, Node>, refs: seq<LayerRef>): seq<real> {
    if refs == [] then []
    else
      var last := OutputOf(nodes, refs[|refs| - 1]);
      Gather(nodes, refs[..|refs| - 1]) + (if last.Some? then last.value else [])
  }

  /** The number of values the outputs of `refs` hold; what the first loop of `collectDataForNode` adds up. */
  function TotalCount(nodes: map<LayerRef, Node>, refs: seq<LayerRef>): nat {
    if refs == [] then 0
    else
      var last := OutputOf(nodes, refs[|refs| - 1]);
      TotalCount(nodes, refs[..|refs| - 1]) + (if last.Some? then |last.value| else 0)
  }

  lemma {:induction false} GatherLength(nodes: map<LayerRef, Node>, refs: seq<LayerRef>)
    ensures |Gather(nodes, refs)| == TotalCount(nodes, refs)
    decreases |refs|
  {
    if refs != [] {
      GatherLength(nodes, refs[..|refs| - 1]);
    }
  }

  /** A prefix of the inputs never gathers more than all of them. */
  lemma {:induction false} GatherPrefixLength(nodes: map<LayerRef, Node>, refs: seq<LayerRef>, j: nat)
    requires j <= |refs|
    ensures |Gather(nodes, refs[..j])| <= |Gather(nodes, refs)|
    decreases |refs|
  {
    if j < |refs| {
      var init := refs[..|refs| - 1];
      assert init[..j] == refs[..j];
      GatherPrefixLength(nodes, init, j);
    } else {
      assert refs[..j] == refs;
    }
  }

  /** Gathering reads only the outputs of the listed nodes. */
  lemma {:induction false} GatherFrame(a: map<LayerRef, Node>, b: map<LayerRef, Node>, refs: seq<LayerRef>)
    requires forall k | k in refs :: OutputOf(a, k) == OutputOf(b, k)
    ensures Gather(a, refs) == Gather(b, refs)
    decreases |refs|
  {
    if refs != [] {
      GatherFrame(a, b, refs[..|refs| - 1]);
    }
  }

  /** The input `collectDataForNode` leaves behind: a fresh zeroed array of the gathered
      size when there was none or it was too short, otherwise the old one; then the
      gathered values are written from the start. */
  function Filled(previous: Option<seq<real>>, gathered: seq<real>): (r: seq<real>)
    ensures |gathered| <= |r| && r[..|gathered|] == gathered
    ensures |r| == |gathered| <==> previous.None? || |previous.value| <= |gathered|
    ensures previous.Some? && |gathered| <= |previous.value| ==> r[|gathered|..] == previous.value[|gathered|..]
  {
    if previous.None? || |previous.value| < |gathered| then gathered
    else gathered + previous.value[|gathered|..]
  }

  /** A node after `forward` processed it on the gathered data: its input is filled
      with that data and, for a forward layer, its output is what the layer computes
      from the input. */
  function Evaluate(n: Node, gathered: seq<real>, apply: (Layer, seq<real>) -> seq<real>): Node {
    var v := Filled(n.input, gathered);
    n.(input := Some(v), output := if n.layer.isForward then Some(apply(n.layer, v)) else n.output)
  }

  lemma EvaluateMeaning(n: Node, gathered: seq<real>, apply: (Layer, seq<real>) -> seq<real>)
    ensures var r := Evaluate(n, gathered, apply);
            && r.layer == n.layer && r.inputNodes == n.inputNodes && r.outputNodes == n.outputNodes
            && r.input.Some? && |gathered| <= |r.input.value| && r.input.value[..|gathered|] == gathered
            && (n.layer.isForward ==> r.output == Some(apply(n.layer, r.input.value)))
            && (!n.layer.isForward ==> r.output == n.output)
  {
  }

  /** Node `x` was processed by `forward` on the current outputs of its inputs. */
  predicate Evaluated(start: map<LayerRef, Node>, nodes: map<LayerRef, Node>, x: LayerRef,
                      apply: (Layer, seq<real>) -> seq<real>)
  {
    x in start && x in nodes
    && nodes[x] == Evaluate(start[x], Gather(nodes, start[x].inputNodes), apply)
  }

  /** Where `forward` stands after the data nodes `data` were loaded and the nodes `done`
      were processed, in that order: every data node holds its layer's data, every done
      node was evaluated once and after all its inputs, and every other node is untouched. */
  predicate Progress(start: map<LayerRef, Node>, nodes: map<LayerRef, Node>, data: seq<LayerRef>,
                     done: seq<LayerRef>, apply: (Layer, seq<real>) -> seq<real>)
  {
    SameShape(start, nodes)
    && (forall d | d in data :: d in start && nodes[d] == start[d].(output := Some(start[d].layer.data)))
    && (forall i, j | 0 <= i < j < |done| :: done[i] != done[j])
    && (forall x | x in done :: x !in data && Evaluated(start, nodes, x, apply))
    && (forall k | k in start && k !in data && k !in done :: nodes[k] == start[k])
    && InOrder(start, data, done)
  }

  /** Loading one more data node keeps the progress description. */
  lemma LoadStep(start: map<LayerRef, Node>, nodes: map<LayerRef, Node>, data: seq<LayerRef>, d: LayerRef,
                 apply: (Layer, seq<real>) -> seq<real>)
    requires Progress(start, nodes, data, [], apply) && d in start
    ensures Progress(start, nodes[d := nodes[d].(output := Some(nodes[d].layer.data))], data + [d], [], apply)
  {
  }

  /** Every done node was processed after all of its inputs. */
  predicate InOrder(start: map<LayerRef, Node>, data: seq<LayerRef>, done: seq<LayerRef>) {
    forall i | 0 <= i < |done| ::
      done[i] in start && forall m | m in start[done[i]].inputNodes :: m in data || m in done[..i]
  }

  lemma OrderStep(start: map<LayerRef, Node>, data: seq<LayerRef>, done: seq<LayerRef>, y: LayerRef)
    requires InOrder(start, data, done)
    requires y in start && forall m | m in start[y].inputNodes :: m in data || m in done
    ensures InOrder(start, data, done + [y])
  {
    var done' := done + [y];
    forall i | 0 <= i < |done'|
      ensures done'[i] in start && forall m | m in start[done'[i]].inputNodes :: m in data || m in done'[..i]
    {
      if i < |done| {
        assert done'[..i] == done[..i];
      } else {
        assert done'[..i] == done;
      }
    }
  }

  /** Evaluating `y` after all its inputs leaves the earlier evaluations valid. */
  lemma EvaluatedStep(start: map<LayerRef, Node>, nodes: map<LayerRef, Node>, data: seq<LayerRef>,
                      done: seq<LayerRef>, y: LayerRef, apply: (Layer, seq<real>) -> seq<real>)
    requires AllLinked(start)
    requires SameShape(start, nodes) && InOrder(start, data, done)
    requires forall x | x in done :: Evaluated(start, nodes, x, apply)
    requires y in start && y !in data && y !in done
    requires forall m | m in start[y].inputNodes :: m in data || m in done
    ensures var after := nodes[y := Evaluate(start[y], Gather(nodes, start[y].inputNodes), apply)];
            forall x | x in done + [y] :: Evaluated(start, after, x, apply)
  {
    var after := nodes[y := Evaluate(start[y], Gather(nodes, start[y].inputNodes), apply)];
    assert Linked(start, start[y]);
    GatherFrame(nodes, after, start[y].inputNodes);
    forall x | x in done
      ensures Evaluated(start, after, x, apply)
    {
      var i :| 0 <= i < |done| && done[i] == x;
      assert forall m | m in start[x].inputNodes :: m in data || m in done[..i];
      GatherFrame(nodes, after, start[x].inputNodes);
    }
  }

  /** Processing a node none of whose inputs is pending keeps the progress description. */
  lemma ProcessStep(start: map<LayerRef, Node>, nodes: map<LayerRef, Node>, data: seq<LayerRef>,
                    done: seq<LayerRef>, y: LayerRef, apply: (Layer, seq<real>) -> seq<real>)
    requires AllLinked(start)
    requires Progress(start, nodes, data, done, apply)
    requires y in start && y !in data && y !in done
    requires forall m | m in start[y].inputNodes :: m in data || m in done
    ensures Progress(start, nodes[y := Evaluate(start[y], Gather(nodes, start[y].inputNodes), apply)],
                     data, done + [y], apply)
  {
    var after := nodes[y := Evaluate(start[y], Gather(nodes, start[y].inputNodes), apply)];
    var done' := done + [y];
    assert Linked(start, start[y]);
    OrderStep(start, data, done, y);
    EvaluatedStep(start, nodes, data, done, y, apply);
    assert SameShape(start, after);
    BookkeepingStep(start, nodes, after, data, done, y);
  }

  /** The bookkeeping half of `ProcessStep`: only `y` changed, and `y` was new. */
  lemma BookkeepingStep(start: map<LayerRef, Node>, nodes: map<LayerRef, Node>, after: map<LayerRef, Node>,
                        data: seq<LayerRef>, done: seq<LayerRef>, y: LayerRef)
    requires y !in data && y !in done && y in nodes && after.Keys == nodes.Keys && start.Keys == nodes.Keys
    requires forall k | k in nodes && k != y :: after[k] == nodes[k]
    requires forall d | d in data :: d in start && nodes[d] == start[d].(output := Some(start[d].layer.data))
    requires forall i, j | 0 <= i < j < |done| :: done[i] != done[j]
    requires forall x | x in done :: x !in data
    requires forall k | k in start && k !in data && k !in done :: k in nodes && nodes[k] == start[k]
    ensures forall d | d in data :: d in start && after[d] == start[d].(output := Some(start[d].layer.data))
    ensures forall i, j | 0 <= i < j < |done + [y]| :: (done + [y])[i] != (done + [y])[j]
    ensures forall x | x in done + [y] :: x !in data
    ensures forall k | k in start && k !in data && k !in done + [y] :: after[k] == start[k]
  {
    var done' := done + [y];
    forall i, j | 0 <= i < j < |done'|
      ensures done'[i] != done'[j]
    {
      if j == |done| {
        assert done'[i] in done;
      }
    }
  }

  /** What `forward` guarantees once it stops, read off its progress description:
      data nodes hold their layers' data; no node is processed twice or is a data node;
      every node runs after all of its inputs; a processed node's input starts with the
      concatenation of its inputs' outputs, and a forward layer's output is what it
      computed from that input; nodes never reached are untouched. */
  lemma ForwardMeaning(start: map<LayerRef, Node>, nodes: map<LayerRef, Node>, data: seq<LayerRef>,
                       done: seq<LayerRef>, apply: (Layer, seq<real>) -> seq<real>)
    requires Progress(start, nodes, data, done, apply)
    ensures forall d | d in data :: d in nodes && nodes[d].output == Some(start[d].layer.data)
    ensures forall i, j | 0 <= i < j < |done| :: done[i] != done[j]
    ensures forall x | x in done :: x !in data && x in nodes
    ensures forall i | 0 <= i < |done| ::
              forall m | m in nodes[done[i]].inputNodes :: m in data || m in done[..i]
    ensures forall x | x in done ::
              nodes[x].input.Some? && var g := Gather(nodes, nodes[x].inputNodes);
              |g| <= |nodes[x].input.value| && nodes[x].input.value[..|g|] == g
    ensures forall x | x in done && nodes[x].layer.isForward ::
              nodes[x].output == Some(apply(nodes[x].layer, nodes[x].input.value))
    ensures forall k | k in start && k !in data && k !in done :: k in nodes && nodes[k] == start[k]
  {
    forall x | x in done
      ensures nodes[x].input.Some? && var g := Gather(nodes, nodes[x].inputNodes);
              |g| <= |nodes[x].input.value| && nodes[x].input.value[..|g|] == g
      ensures nodes[x].layer.isForward ==> nodes[x].output == Some(apply(nodes[x].layer, nodes[x].input.value))
    {
      EvaluateMeaning(start[x], Gather(nodes, start[x].inputNodes), apply);
    }
  }

  /** What the worklist of `forward` keeps true: the progress description, the
      closed nodes are the data nodes and the processed ones, and every open node
      is ready. */
  predicate Scheduled(start: map<LayerRef, Node>, nodes: map<LayerRef, Node>, data: seq<LayerRef>,
                      open: seq<LayerRef>, closed: set<LayerRef>, done: seq<LayerRef>,
                      apply: (Layer, seq<real>) -> seq<real>)
  {
    Progress(start, nodes, data, done, apply)
    && closed == Elems(data) + Elems(done)
    && (forall x | x in done :: start[x].inputNodes != [])
    && forall k | k in open :: Openable(start, k, closed)
  }

  /** A node the worklist may hold: registered, with at least one input, and every
      input closed. A node without inputs is never an output of a closed node, so
      the worklist never holds one. */
  predicate Openable(start: map<LayerRef, Node>, k: LayerRef, closed: set<LayerRef>) {
    k in start && start[k].inputNodes != [] && NodeReady(start[k], closed)
  }

  /** Processing and closing one more node keeps the worklist description. */
  lemma ScheduledStep(start: map<LayerRef, Node>, nodes: map<LayerRef, Node>, data: seq<LayerRef>,
                      open: seq<LayerRef>, closed: set<LayerRef>, done: seq<LayerRef>, y: LayerRef,
                      apply: (Layer, seq<real>) -> seq<real>)
    requires Progress(start, nodes, data, done + [y], apply)
    requires closed == Elems(data) + Elems(done)
    requires (forall x | x in done :: start[x].inputNodes != []) && y in start && start[y].inputNodes != []
    requires forall k | k in open :: Openable(start, k, closed + {y})
    ensures Scheduled(start, nodes, data, open, closed + {y}, done + [y], apply)
  {
    assert Elems(done + [y]) == Elems(done) + {y};
  }

  /** Popping the last open node keeps the worklist description for the rest of the list;
      the popped node is ready, and when it is already closed nothing is pending for it. */
  lemma PopStep(start: map<LayerRef, Node>, nodes: map<LayerRef, Node>, data: seq<LayerRef>,
                open: seq<LayerRef>, closed: set<LayerRef>, done: seq<LayerRef>,
                apply: (Layer, seq<real>) -> seq<real>)
    requires open != []
    requires Scheduled(start, nodes, data, open, closed, done, apply) && Frontier(start, Elems(open), closed)
    ensures var node := open[|open| - 1];
            && Scheduled(start, nodes, data, open[..|open| - 1], closed, done, apply)
            && Openable(start, node, closed)
            && Frontier(start, Elems(open[..|open| - 1]) + {node}, closed)
            && (node in closed ==> Frontier(start, Elems(open[..|open| - 1]), closed))
  {
    ElemsPop(open);
  }

  /** The worklist misses no node: every output of a closed node is closed, pending,
      or still waits for one of its inputs. */
  predicate Frontier(start: map<LayerRef, Node>, pending: set<LayerRef>, closed: set<LayerRef>) {
    forall c, y | c in closed && c in start && y in start[c].outputNodes ::
      y in closed || y in pending || !ReadyIn(start, y, closed)
  }

  /** Once nothing is pending, every node that has inputs and whose inputs are all
      closed is closed itself: the worklist reached every node it could. */
  lemma {:induction false} FrontierComplete(start: map<LayerRef, Node>, closed: set<LayerRef>)
    requires AllLinked(start) && Symmetric(start) && Frontier(start, {}, closed)
    ensures forall y | y in start && start[y].inputNodes != [] && NodeReady(start[y], closed) :: y in closed
  {
    forall y | y in start && start[y].inputNodes != [] && NodeReady(start[y], closed)
      ensures y in closed
    {
      var m := start[y].inputNodes[0];
      assert Linked(start, start[y]);
      assert m in closed && m in start;
      assert y in start[m].outputNodes;
    }
  }

  /** A node that closing `node` made ready is an output of `node`. */
  lemma NewlyReady(start: map<LayerRef, Node>, closed: set<LayerRef>, node: LayerRef, y: LayerRef)
    requires Symmetric(start) && node in start && y in start
    requires NodeReady(start[y], closed + {node}) && !NodeReady(start[y], closed)
    ensures y in start[node].outputNodes
  {
    var m :| m in start[y].inputNodes && m !in closed;
    assert m == node;
  }

  /** Closing `node` and opening its ready outputs misses no node that became ready:
      only the outputs of `node` can have become ready. */
  lemma FrontierStep(start: map<LayerRef, Node>, nodes: map<LayerRef, Node>, open: seq<LayerRef>,
                     closed: set<LayerRef>, node: LayerRef)
    requires AllLinked(start) && Symmetric(start) && SameShape(start, nodes) && node in start
    requires Frontier(start, Elems(open) + {node}, closed)
    ensures var closed' := closed + {node};
            Frontier(start, Elems(open + ReadyAmong(nodes, nodes[node].outputNodes, closed')), closed')
  {
    var closed' := closed + {node};
    var newOpen := ReadyAmong(nodes, nodes[node].outputNodes, closed');
    forall c, y | c in closed' && c in start && y in start[c].outputNodes
      ensures y in closed' || y in Elems(open + newOpen) || !ReadyIn(start, y, closed')
    {
      FrontierPair(start, nodes, open, closed, node, c, y);
    }
  }

  /** `FrontierStep` for one output `y` of one closed node `c`. */
  lemma FrontierPair(start: map<LayerRef, Node>, nodes: map<LayerRef, Node>, open: seq<LayerRef>,
                     closed: set<LayerRef>, node: LayerRef, c: LayerRef, y: LayerRef)
    requires AllLinked(start) && Symmetric(start) && SameShape(start, nodes) && node in start
    requires Frontier(start, Elems(open) + {node}, closed)
    requires c in closed + {node} && c in start && y in start[c].outputNodes
    ensures var closed' := closed + {node};
            y in closed' || y in Elems(open + ReadyAmong(nodes, nodes[node].outputNodes, closed'))
            || !ReadyIn(start, y, closed')
  {
    var closed' := closed + {node};
    assert Linked(start, start[c]);
    if ReadyIn(start, y, closed') && y !in closed' && y !in open {
      if c != node {
        NewlyReady(start, closed, node, y);
      }
      assert nodes[y].inputNodes == start[y].inputNodes;
      var newOpen := ReadyAmong(nodes, nodes[node].outputNodes, closed');
      assert y in newOpen;
      assert y in open + newOpen;
    }
  }

  /** The ids a sequence lists. */
  function Elems(s: seq<LayerRef>): set<LayerRef> {
    set x | x in s
  }

  /** When the worklist is empty, the graph is still well formed and every node whose
      inputs are all closed has been closed. */
  lemma ForwardDone(start: map<LayerRef, Node>, nodes: map<LayerRef, Node>, data: seq<LayerRef>, nextID: nat,
                    closed: set<LayerRef>, done: seq<LayerRef>, apply: (Layer, seq<real>) -> seq<real>)
    requires WellFormed(start, data, nextID)
    requires Scheduled(start, nodes, data, [], closed, done, apply) && Frontier(start, {}, closed)
    ensures WellFormed(nodes, data, nextID)
    ensures forall y | y in nodes && nodes[y].inputNodes != [] && NodeReady(nodes[y], closed) :: y in closed
  {
    SameShapeWellFormed(start, nodes, data, nextID);
    FrontierComplete(start, closed);
  }

  /** `y` is an output of one of the nodes `from` or `prior`. */
  predicate OutputOfAny(start: map<LayerRef, Node>, from: seq<LayerRef>, prior: seq<LayerRef>, y: LayerRef) {
    exists m | m in start && (m in from || m in prior) :: y in start[m].outputNodes
  }

  /** Every node the worklist processed is an output of a data node or of a node
      processed before it: the worklist only reaches nodes along connections. */
  lemma ForwardReached(start: map<LayerRef, Node>, nodes: map<LayerRef, Node>, data: seq<LayerRef>,
                       done: seq<LayerRef>, apply: (Layer, seq<real>) -> seq<real>)
    requires AllLinked(start) && Symmetric(start) && Progress(start, nodes, data, done, apply)
    requires forall x | x in done :: start[x].inputNodes != []
    ensures forall i | 0 <= i < |done| :: OutputOfAny(start, data, done[..i], done[i])
  {
    forall i | 0 <= i < |done|
      ensures OutputOfAny(start, data, done[..i], done[i])
    {
      var y := done[i];
      assert y in done;
      var m := start[y].inputNodes[0];
      assert Linked(start, start[y]);
      assert m in data || m in done[..i];
      assert y in start[m].outputNodes;
    }
  }

  /** Removing the last element of a list removes at most that element from its set. */
  lemma ElemsPop(s: seq<LayerRef>)
    requires s != []
    ensures Elems(s) == Elems(s[..|s| - 1]) + {s[|s| - 1]}
  {
    assert s == s[..|s| - 1] + [s[|s| - 1]];
  }

  /** The first loop of `collectDataForNode`: the total length of the outputs it will gather. */
  method GatheredSize(nodes: map<LayerRef, Node>, refs: seq<LayerRef>) returns (size: nat)
    ensures size == |Gather(nodes, refs)|
  {
    size := 0;
    for j := 0 to |refs|
      invariant size == |Gather(nodes, refs[..j])|
    {
      assert refs[..j + 1][..j] == refs[..j];
      var o := OutputOf(nodes, refs[j]);
      size := size + if o.Some? then |o.value| else 0;
    }
    assert refs[..|refs|] == refs;
  }

  /** The second loop of `collectDataForNode`: the gathered outputs written over the start
      of `input`, one after another; the rest of `input` is left as it was. */
  method CopyGathered(nodes: map<LayerRef, Node>, refs: seq<LayerRef>, input: seq<real>) returns (r: seq<real>)
    requires |Gather(nodes, refs)| <= |input|
    ensures |r| == |input|
    ensures r[..|Gather(nodes, refs)|] == Gather(nodes, refs)
    ensures r[|Gather(nodes, refs)|..] == input[|Gather(nodes, refs)|..]
  {
    GatherPrefixLength(nodes, refs, |refs|);
    assert refs[..|refs|] == refs;
    r := input;
    var i := 0;
    for j := 0 to |refs|
      invariant i == |Gather(nodes, refs[..j])| <= |Gather(nodes, refs)|
      invariant |r| == |input|
      invariant r[..i] == Gather(nodes, refs[..j])
      invariant r[i..] == input[i..]
    {
      assert refs[..j + 1][..j] == refs[..j];
      GatherPrefixLength(nodes, refs, j + 1);
      var o := OutputOf(nodes, refs[j]);
      if o.Some? {
        var next := r[..i] + o.value + r[i + |o.value|..];
        assert next[..i + |o.value|] == r[..i] + o.value;
        assert next[i + |o.value|..] == r[i + |o.value|..];
        r := next;
        i := i + |o.value|;
      }
    }
  }

  class Net {
    var nextID: nat
    var dataNodes: seq<LayerRef>
    var nodes: map<LayerRef, Node>
    var openNodes: seq<LayerRef>
    var closedNodes: set<LayerRef>

    predicate Valid()
      reads this`nodes, this`dataNodes, this`nextID
    {
      WellFormed(nodes, dataNodes, nextID)
    }

    constructor()
      ensures Valid()
      ensures nextID == 0 && dataNodes == [] && nodes == map[] && openNodes == [] && closedNodes == {}
    {
      nextID := 0;
      dataNodes := [];
      nodes := map[];
      openNodes := [];
      closedNodes := {};
    }

    /** `addLayer`: validate the layer, then register it under the next id. */
    method AddLayer(layer: Layer) returns (r: Result<LayerRef>)
      requires Valid()
      modifies this`nextID, this`dataNodes, this`nodes
      ensures Valid()
      ensures ValidateLayer(layer).Some? ==> r == Fatal(ValidateLayer(layer).value) && unchanged(this)
      ensures ValidateLayer(layer).None? ==>
                r == Ok(old(nextID)) && r.value !in old(nodes) && nextID == old(nextID) + 1
                && nodes == old(nodes)[r.value := NewNode(layer)]
                && dataNodes == old(dataNodes) + (if layer.isData then [r.value] else [])
    {
      var invalid := ValidateLayer(layer);
      if invalid.Some? {
        return Fatal(invalid.value);
      }
      var id := nextID;
      nextID := nextID + 1;
      assert id !in nodes && id !in dataNodes;
      if layer.isData {
        dataNodes := dataNodes + [id];
      }
      nodes := nodes[id := NewNode(layer)];
      r := Ok(id);
    }

    /** `connectLayer(a, toLayer: b)`: both ids must be registered. */
    method ConnectLayer(a: LayerRef, b: LayerRef) returns (r: Result<()>)
      requires Valid()
      modifies this`nodes
      ensures Valid()
      ensures a !in old(nodes) || b !in old(nodes) ==> r == Fatal(NotFoundReason) && nodes == old(nodes)
      ensures a in old(nodes) && b in old(nodes) ==> r == Ok(()) && nodes == Connect(old(nodes), a, b)
    {
      if a !in nodes || b !in nodes {
        return Fatal(NotFoundReason);
      }
      ConnectWellFormed(nodes, dataNodes, nextID, a, b);
      var node1 := nodes[a];
      nodes := nodes[a := node1.(outputNodes := node1.outputNodes + [b])];
      var node2 := nodes[b];
      nodes := nodes[b := node2.(inputNodes := node2.inputNodes + [a])];
      r := Ok(());
    }

    /** `isNodeReady`: scan the inputs for one that is not closed. */
    method IsNodeReady(node: Node) returns (r: bool)
      ensures r <==> NodeReady(node, closedNodes)
    {
      for i := 0 to |node.inputNodes|
        invariant forall j | 0 <= j < i :: node.inputNodes[j] in closedNodes
      {
        if node.inputNodes[i] !in closedNodes {
          return false;
        }
      }
      return true;
    }

    /** `closeNode`: close `n`, then open its output nodes that became ready. */
    method CloseNode(n: LayerRef)
      requires n in nodes && Linked(nodes, nodes[n])
      modifies this`openNodes, this`closedNodes
      ensures closedNodes == old(closedNodes) + {n}
      ensures openNodes == old(openNodes) + ReadyAmong(nodes, nodes[n].outputNodes, closedNodes)
    {
      closedNodes := closedNodes + {n};
      var outs := nodes[n].outputNodes;
      var newOpenNodes := [];
      for i := 0 to |outs|
        invariant closedNodes == old(closedNodes) + {n} && openNodes == old(openNodes)
        invariant newOpenNodes == ReadyAmong(nodes, outs[..i], closedNodes)
      {
        assert outs[..i + 1][..i] == outs[..i];
        var ready := IsNodeReady(nodes[outs[i]]);
        if ready {
          newOpenNodes := newOpenNodes + [outs[i]];
        }
      }
      assert outs[..|outs|] == outs;
      openNodes := openNodes + newOpenNodes;
    }

    /** `collectDataForNode`: size the input for the gathered outputs, then copy them in, in input order. */
    method CollectDataForNode(x: LayerRef) returns (data: seq<real>)
      requires x in nodes
      modifies this`nodes
      ensures data == Filled(old(nodes)[x].input, Gather(old(nodes), old(nodes)[x].inputNodes))
      ensures nodes == old(nodes)[x := old(nodes)[x].(input := Some(data))]
    {
      var node := nodes[x];
      var size := GatheredSize(nodes, node.inputNodes);
      var input: seq<real>;
      if node.input.None? || |node.input.value| < size {
        input := seq(size, _ => 0.0);
      } else {
        input := node.input.value;
      }
      data := CopyGathered(nodes, node.inputNodes, input);
      ghost var gathered := Gather(nodes, node.inputNodes);
      assert data == data[..size] + data[size..];
      nodes := nodes[x := node.(input := Some(data))];
    }

    /** One iteration of the worklist of `forward` for a node that is not closed:
        gather its data and, for a forward layer, compute its output. */
    method ProcessNode(node: LayerRef, apply: (Layer, seq<real>) -> seq<real>) returns (data: seq<real>)
      requires node in nodes && Linked(nodes, nodes[node])
      modifies this`nodes
      ensures nodes == old(nodes)[node := Evaluate(old(nodes)[node], Gather(old(nodes), old(nodes)[node].inputNodes), apply)]
      ensures nodes[node].input == Some(data)
    {
      data := CollectDataForNode(node);
      if nodes[node].layer.isForward {
        nodes := nodes[node := nodes[node].(output := Some(apply(nodes[node].layer, data)))];
      }
    }

    /** The worklist body of `forward` for a node that is not closed and whose inputs
        are all closed: evaluate it. Open and closed nodes are left to `CloseNode`. */
    method EvaluateNode(node: LayerRef, apply: (Layer, seq<real>) -> seq<real>,
                        ghost start: map<LayerRef, Node>, ghost processed: seq<LayerRef>) returns (data: seq<real>)
      requires AllLinked(start) && Progress(start, nodes, dataNodes, processed, apply)
      requires node in start && node !in dataNodes && node !in processed
      requires forall m | m in start[node].inputNodes :: m in dataNodes || m in processed
      modifies this`nodes
      ensures Progress(start, nodes, dataNodes, processed + [node], apply)
      ensures forall x | x in processed :: x in nodes && nodes[x] == old(nodes)[x]
      ensures nodes[node].input == Some(data)
    {
      ProcessStep(start, nodes, dataNodes, processed, node, apply);
      assert nodes[node] == start[node];
      ghost var after := nodes[node := Evaluate(start[node], Gather(nodes, start[node].inputNodes), apply)];
      data := ProcessNode(node, apply);
      assert nodes == after;
    }

    /** `closeNode` inside `forward`: every open node stays ready, since closing only adds to the closed set. */
    method CloseReady(node: LayerRef, ghost start: map<LayerRef, Node>)
      requires AllLinked(start) && Symmetric(start) && SameShape(start, nodes) && node in start
      requires forall k | k in openNodes :: Openable(start, k, closedNodes)
      requires Frontier(start, Elems(openNodes) + {node}, closedNodes)
      modifies this`openNodes, this`closedNodes
      ensures closedNodes == old(closedNodes) + {node}
      ensures forall k | k in openNodes :: Openable(start, k, closedNodes)
      ensures Frontier(start, Elems(openNodes), closedNodes)
    {
      assert Linked(start, start[node]);
      CloseNode(node);
      forall k | k in openNodes
        ensures Openable(start, k, closedNodes)
      {
        if k !in old(openNodes) {
          assert k in ReadyAmong(nodes, nodes[node].outputNodes, closedNodes);
          assert node in start[k].inputNodes;
        }
      }
      FrontierStep(start, nodes, old(openNodes), old(closedNodes), node);
    }

    /** One turn of the worklist for a popped node that is not closed. */
    method Visit(node: LayerRef, apply: (Layer, seq<real>) -> seq<real>,
                 ghost start: map<LayerRef, Node>, ghost processed: seq<LayerRef>)
      requires AllLinked(start) && Scheduled(start, nodes, dataNodes, openNodes, closedNodes, processed, apply)
      requires node !in closedNodes && Openable(start, node, closedNodes)
      requires Symmetric(start) && Frontier(start, Elems(openNodes) + {node}, closedNodes)
      modifies this`nodes, this`openNodes, this`closedNodes
      ensures Scheduled(start, nodes, dataNodes, openNodes, closedNodes, processed + [node], apply)
      ensures closedNodes == old(closedNodes) + {node}
      ensures Frontier(start, Elems(openNodes), closedNodes)
    {
      var data := EvaluateNode(node, apply, start, processed);
      assert SameShape(start, nodes);
      CloseReady(node, start);
      ScheduledStep(start, nodes, dataNodes, openNodes, old(closedNodes), processed, node, apply);
    }

    /** One turn of the first loop of `forward`: give data node `n` its layer's data and close it. */
    method LoadDataNode(n: LayerRef, apply: (Layer, seq<real>) -> seq<real>,
                        ghost start: map<LayerRef, Node>, ghost loaded: seq<LayerRef>)
      requires AllLinked(start) && Scheduled(start, nodes, loaded, openNodes, closedNodes, [], apply) && n in start
      requires Symmetric(start) && Frontier(start, Elems(openNodes), closedNodes)
      modifies this`nodes, this`openNodes, this`closedNodes
      ensures Scheduled(start, nodes, loaded + [n], openNodes, closedNodes, [], apply)
      ensures Frontier(start, Elems(openNodes), closedNodes)
    {
      LoadStep(start, nodes, loaded, n, apply);
      nodes := nodes[n := nodes[n].(output := Some(nodes[n].layer.data))];
      CloseReady(n, start);
      assert Elems(loaded + [n]) == Elems(loaded) + {n};
    }

    /** The first loop of `forward`: every data node gets its layer's data and is closed. */
    method LoadDataNodes(apply: (Layer, seq<real>) -> seq<real>, ghost start: map<LayerRef, Node>)
      requires AllLinked(start) && Symmetric(start) && nodes == start && forall d | d in dataNodes :: d in start
      modifies this`nodes, this`openNodes, this`closedNodes
      ensures Scheduled(start, nodes, dataNodes, openNodes, closedNodes, [], apply)
      ensures Frontier(start, Elems(openNodes), closedNodes)
    {
      openNodes := [];
      closedNodes := {};
      assert Elems([]) == {};
      for i := 0 to |dataNodes|
        invariant Scheduled(start, nodes, dataNodes[..i], openNodes, closedNodes, [], apply)
        invariant Frontier(start, Elems(openNodes), closedNodes)
      {
        assert dataNodes[..i + 1] == dataNodes[..i] + [dataNodes[i]];
        LoadDataNode(dataNodes[i], apply, start, dataNodes[..i]);
      }
      assert dataNodes[..|dataNodes|] == dataNodes;
    }

    /** One turn of the second loop of `forward`: pop the last open node; skip it when
        it is closed, otherwise evaluate and close it. */
    method PopAndVisit(apply: (Layer, seq<real>) -> seq<real>, ghost start: map<LayerRef, Node>,
                       processed: seq<LayerRef>)
      returns (processed': seq<LayerRef>)
      requires AllLinked(start) && Scheduled(start, nodes, dataNodes, openNodes, closedNodes, processed, apply)
      requires Symmetric(start) && Frontier(start, Elems(openNodes), closedNodes) && openNodes != []
      modifies this`nodes, this`openNodes, this`closedNodes
      ensures Scheduled(start, nodes, dataNodes, openNodes, closedNodes, processed', apply)
      ensures Frontier(start, Elems(openNodes), closedNodes)
      ensures var node := old(openNodes)[|old(openNodes)| - 1];
              if node in old(closedNodes) then
                processed' == processed && closedNodes == old(closedNodes)
                && openNodes == old(openNodes)[..|old(openNodes)| - 1]
              else
                processed' == processed + [node] && closedNodes == old(closedNodes) + {node} && node in start
    {
      var node := openNodes[|openNodes| - 1];
      PopStep(start, nodes, dataNodes, openNodes, closedNodes, processed, apply);
      openNodes := openNodes[..|openNodes| - 1];
      if node in closedNodes {
        return processed;
      }
      Visit(node, apply, start, processed);
      processed' := processed + [node];
    }

    /** The second loop of `forward`: run turns until nothing is open. */
    method RunWorklist(apply: (Layer, seq<real>) -> seq<real>, ghost start: map<LayerRef, Node>)
      returns (processed: seq<LayerRef>)
      requires AllLinked(start) && Scheduled(start, nodes, dataNodes, openNodes, closedNodes, [], apply)
      requires Symmetric(start) && Frontier(start, Elems(openNodes), closedNodes)
      modifies this`nodes, this`openNodes, this`closedNodes
      ensures openNodes == []
      ensures Scheduled(start, nodes, dataNodes, openNodes, closedNodes, processed, apply)
      ensures Frontier(start, {}, closedNodes)
      ensures forall k | k in old(openNodes) :: k in closedNodes
    {
      processed := [];
      while openNodes != []
        invariant Scheduled(start, nodes, dataNodes, openNodes, closedNodes, processed, apply)
        invariant Frontier(start, Elems(openNodes), closedNodes)
        invariant old(closedNodes) <= closedNodes
        decreases start.Keys - closedNodes, |openNodes|
      {
        processed := PopAndVisit(apply, start, processed);
      }
      FrontierComplete(start, closedNodes);
    }

    /** `forward`: load every data node, then run the worklist. Forward layers compute
        their output with `apply`; a sink layer consumes the input left in its node,
        in the order of `processed`. */
    method Forward(apply: (Layer, seq<real>) -> seq<real>) returns (processed: seq<LayerRef>)
      requires Valid()
      modifies this`nodes, this`openNodes, this`closedNodes
      ensures Valid()
      ensures openNodes == []
      ensures closedNodes == Elems(dataNodes) + Elems(processed)
      ensures Progress(old(nodes), nodes, dataNodes, processed, apply)
      ensures forall y | y in nodes && nodes[y].inputNodes != [] && NodeReady(nodes[y], closedNodes) :: y in closedNodes
      ensures forall x | x in processed :: old(nodes)[x].inputNodes != []
      ensures forall i | 0 <= i < |processed| :: OutputOfAny(old(nodes), dataNodes, processed[..i], processed[i])
    {
      ghost var start := nodes;
      assert AllLinked(start);
      LoadDataNodes(apply, start);
      processed := RunWorklist(apply, start);
      ForwardDone(start, nodes, dataNodes, nextID, closedNodes, processed, apply);
      ForwardReached(start, nodes, dataNodes, processed, apply);
    }
  }
}
