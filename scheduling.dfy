/** The readiness rules shared by every run instance: which node may run once
    some nodes are closed. The forward direction follows data from producers to
    consumers; the backward direction runs it in reverse. */
module Scheduling {
  import opened Outcomes
  import opened NetNodes
  import opened NetBuffers

  datatype Direction = Forward | Backward

  /** `node.inputBuffer`, resolved; a handle that no longer resolves reads as nil. */
  function InputBufferOf(g: NetGraph, n: NetNode): Option<NetBuffer> {
    if n.inputBuffer.Some? && n.inputBuffer.value in g.buffers then Some(g.buffers[n.inputBuffer.value]) else None
  }

  /** `node.outputBuffer`, resolved. */
  function OutputBufferOf(g: NetGraph, n: NetNode): Option<NetBuffer> {
    if n.outputBuffer.Some? && n.outputBuffer.value in g.buffers then Some(g.buffers[n.outputBuffer.value]) else None
  }

  /** The nodes that must be closed before `n` may run: the producers of its input
      buffer going forward, the consumers of its output buffer going backward. */
  function Predecessors(g: NetGraph, n: NetNode, d: Direction): seq<NetNode> {
    match d
    case Forward => (match InputBufferOf(g, n) case Some(b) => b.inputNodes case None => [])
    case Backward => (match OutputBufferOf(g, n) case Some(b) => b.outputNodes case None => [])
  }

  /** The nodes that closing `n` may open: the consumers of its output buffer going
      forward, the producers of its input buffer going backward. */
  function Successors(g: NetGraph, n: NetNode, d: Direction): seq<NetNode> {
    match d
    case Forward => (match OutputBufferOf(g, n) case Some(b) => b.outputNodes case None => [])
    case Backward => (match InputBufferOf(g, n) case Some(b) => b.inputNodes case None => [])
  }

  function Keys(s: seq<NetNode>): set<LayerId> {
    set i | 0 <= i < |s| :: s[i].Key()
  }

  predicate AllClosed(s: seq<NetNode>, closed: set<LayerId>) {
    forall i | 0 <= i < |s| :: s[i].Key() in closed
  }

  /** `isNodeReady` (and `allInputsClosed` / `allOutputsClosed`). */
  predicate Ready(g: NetGraph, n: NetNode, closed: set<LayerId>, d: Direction) {
    AllClosed(Predecessors(g, n, d), closed)
  }

  /** `s.filter { isNodeReady($0) }`, keeping the order of `s`. */
  function FilterReady(g: NetGraph, s: seq<NetNode>, closed: set<LayerId>, d: Direction): (r: seq<NetNode>)
    ensures |r| <= |s|
    ensures forall x :: x in r <==> x in s && Ready(g, x, closed, d)
    decreases |s|
  {
    if s == [] then []
    else
      var init := FilterReady(g, s[..|s| - 1], closed, d);
      assert s == s[..|s| - 1] + [s[|s| - 1]];
      if Ready(g, s[|s| - 1], closed, d) then init + [s[|s| - 1]] else init
  }

  /** The nodes `closeNode` (or `openOutputsOf` / `openInputsOf`) appends to the open list. */
  function Opened(g: NetGraph, n: NetNode, closed: set<LayerId>, d: Direction): seq<NetNode> {
    FilterReady(g, Successors(g, n, d), closed, d)
  }

  /** Every node some buffer of the graph names. */
  function GraphKeys(g: NetGraph): set<LayerId> {
    (set r, i | r in g.buffers && 0 <= i < |g.buffers[r].inputNodes| :: g.buffers[r].inputNodes[i].Key())
    + (set r, i | r in g.buffers && 0 <= i < |g.buffers[r].outputNodes| :: g.buffers[r].outputNodes[i].Key())
  }

  /** Going forward, a node is ready exactly when it has no input buffer or every
      producer of that buffer is closed; going backward, when it has no output
      buffer or every consumer of that buffer is closed. */
  lemma ReadyMeaning(g: NetGraph, n: NetNode, closed: set<LayerId>)
    ensures Ready(g, n, closed, Forward) <==>
              InputBufferOf(g, n).None? || forall m :: m in InputBufferOf(g, n).value.inputNodes ==> m.Key() in closed
    ensures Ready(g, n, closed, Backward) <==>
              OutputBufferOf(g, n).None? || forall m :: m in OutputBufferOf(g, n).value.outputNodes ==> m.Key() in closed
  {
  }

  /** Closing more nodes never makes a ready node unready. */
  lemma ReadyMonotone(g: NetGraph, n: NetNode, closed: set<LayerId>, more: set<LayerId>, d: Direction)
    requires closed <= more
    requires Ready(g, n, closed, d)
    ensures Ready(g, n, more, d)
  {
  }

  lemma {:induction false} FilterReadyStep(g: NetGraph, s: seq<NetNode>, i: nat, closed: set<LayerId>, d: Direction)
    requires i < |s|
    ensures FilterReady(g, s[..i + 1], closed, d)
            == FilterReady(g, s[..i], closed, d) + (if Ready(g, s[i], closed, d) then [s[i]] else [])
  {
    assert s[..i + 1][..i] == s[..i];
  }

  lemma {:induction false} FilterReadyKeys(g: NetGraph, s: seq<NetNode>, closed: set<LayerId>, d: Direction)
    ensures Keys(FilterReady(g, s, closed, d)) <= Keys(s)
  {
    var r := FilterReady(g, s, closed, d);
    forall k | k in Keys(r) ensures k in Keys(s) {
      var i :| 0 <= i < |r| && r[i].Key() == k;
      assert r[i] in s;
    }
  }

  /** What a closed node opens is always a node the graph names. */
  lemma OpenedInGraph(g: NetGraph, n: NetNode, closed: set<LayerId>, d: Direction)
    ensures Keys(Opened(g, n, closed, d)) <= GraphKeys(g)
  {
    var s := Successors(g, n, d);
    FilterReadyKeys(g, s, closed, d);
    forall k | k in Keys(s) ensures k in GraphKeys(g) {
      var i :| 0 <= i < |s| && s[i].Key() == k;
      match d
      case Forward =>
        var r := n.outputBuffer.value;
        assert g.buffers[r].outputNodes[i].Key() == k;
      case Backward =>
        var r := n.inputBuffer.value;
        assert g.buffers[r].inputNodes[i].Key() == k;
    }
  }

  lemma KeysAppend(a: seq<NetNode>, b: seq<NetNode>)
    ensures Keys(a + b) == Keys(a) + Keys(b)
  {
    forall k | k in Keys(a + b) ensures k in Keys(a) + Keys(b) {
      var i :| 0 <= i < |a + b| && (a + b)[i].Key() == k;
      if i >= |a| { assert b[i - |a|].Key() == k; }
    }
    forall k | k in Keys(a) + Keys(b) ensures k in Keys(a + b) {
      if k in Keys(a) {
        var i :| 0 <= i < |a| && a[i].Key() == k;
        assert (a + b)[i].Key() == k;
      } else {
        var i :| 0 <= i < |b| && b[i].Key() == k;
        assert (a + b)[|a| + i].Key() == k;
      }
    }
  }

  /** Nodes dispatched by a run loop: none was closed when the loop started, none twice,
      and each passed `ok` (the loop's guards). */
  predicate DispatchedOnce(s: seq<NetNode>, closedBefore: set<LayerId>, ok: NetNode -> bool) {
    && (forall i | 0 <= i < |s| :: s[i].Key() !in closedBefore && ok(s[i]))
    && (forall i, j | 0 <= i < j < |s| :: s[i].Key() != s[j].Key())
  }

  /** Dispatching one more node that is not yet closed keeps `DispatchedOnce`. */
  lemma DispatchStep(s: seq<NetNode>, n: NetNode, closedBefore: set<LayerId>, closed: set<LayerId>, ok: NetNode -> bool)
    requires DispatchedOnce(s, closedBefore, ok)
    requires closed == closedBefore + Keys(s)
    requires n.Key() !in closed && ok(n)
    ensures DispatchedOnce(s + [n], closedBefore, ok)
    ensures closed + {n.Key()} == closedBefore + Keys(s + [n])
  {
    KeysAppend(s, [n]);
    assert [n][0] == n;
    assert Keys([n]) == {n.Key()};
    forall i | 0 <= i < |s| ensures s[i].Key() != n.Key() {
      assert s[i].Key() in Keys(s);
    }
  }

  /** The lists of `ss` one after another. */
  function Concat(ss: seq<seq<NetNode>>): seq<NetNode> {
    if ss == [] then [] else Concat(ss[..|ss| - 1]) + ss[|ss| - 1]
  }

  lemma ConcatAppend(ss: seq<seq<NetNode>>, s: seq<NetNode>)
    ensures Concat(ss + [s]) == Concat(ss) + s
  {
    assert (ss + [s])[..|ss|] == ss;
  }

  /** Moving nodes from one part of a side to the other keeps a balance of multisets. */
  lemma MoveBetween(a: multiset<NetNode>, b: multiset<NetNode>, c: multiset<NetNode>, d: multiset<NetNode>,
                    n: multiset<NetNode>)
    requires a + b == c + (d + n)
    ensures a + b == (c + n) + d
  {
    forall x
      ensures (a + b)[x] == ((c + n) + d)[x]
    {
      assert (a + b)[x] == (c + (d + n))[x];
    }
  }

  /** Adding the same nodes to both sides keeps a balance of multisets. */
  lemma BalanceStep(a: multiset<NetNode>, b: multiset<NetNode>, c: multiset<NetNode>, d: multiset<NetNode>,
                    n: multiset<NetNode>)
    requires a + b == c + d
    ensures a + (b + n) == c + (d + n)
  {
    forall x
      ensures (a + (b + n))[x] == (c + (d + n))[x]
    {
      assert (a + b)[x] == (c + d)[x];
    }
  }

  /** `pushed[i]` lists the nodes that closing `dispatched[i]` opened in direction `d`:
      the ready successors of `dispatched[i]` once the nodes closed before the loop and
      `dispatched[..i + 1]` were closed. */
  predicate OpenedBy(g: NetGraph, dispatched: seq<NetNode>, pushed: seq<seq<NetNode>>,
                     closedBefore: set<LayerId>, d: Direction)
    decreases |dispatched|
  {
    |pushed| == |dispatched|
    && (dispatched != [] ==>
          var k := |dispatched| - 1;
          && OpenedBy(g, dispatched[..k], pushed[..k], closedBefore, d)
          && pushed[k] == Opened(g, dispatched[k], closedBefore + Keys(dispatched), d))
  }

  lemma OpenedByStep(g: NetGraph, dispatched: seq<NetNode>, pushed: seq<seq<NetNode>>,
                     closedBefore: set<LayerId>, d: Direction, n: NetNode)
    requires OpenedBy(g, dispatched, pushed, closedBefore, d)
    ensures OpenedBy(g, dispatched + [n], pushed + [Opened(g, n, closedBefore + Keys(dispatched + [n]), d)],
                     closedBefore, d)
  {
    assert (dispatched + [n])[..|dispatched|] == dispatched;
    assert (pushed + [Opened(g, n, closedBefore + Keys(dispatched + [n]), d)])[..|pushed|] == pushed;
  }

  /** The nodes a run loop dispatches: forward layers going forward, backward and
      loss layers going backward. */
  predicate Handled(n: NetNode, d: Direction) {
    match d
    case Forward => n.layer.isForward
    case Backward => n.layer.isBackward || n.layer.isLoss
  }

  /** What a run loop requires of a node before dispatching it: a handled layer with
      both buffers. */
  predicate Dispatches(g: NetGraph, n: NetNode, d: Direction) {
    Handled(n, d) && InputBufferOf(g, n).Some? && OutputBufferOf(g, n).Some?
  }

  /** Where a run loop stands: the open list, and the nodes it dispatched so far. */
  datatype LoopState = LoopState(open: seq<NetNode>, dispatched: seq<NetNode>)

  /** The state a run loop reaches from open list `open0` and closed set `closed0` by
      popping exactly the nodes `popped`, in order. Each popped node must be the last
      open node. A popped node that is not closed and that the loop dispatches is
      closed, and its ready successors are appended; any other popped node is only
      removed. None when some popped node was not the last open node. */
  function Replay(g: NetGraph, open0: seq<NetNode>, closed0: set<LayerId>, popped: seq<NetNode>,
                  d: Direction): Option<LoopState>
    decreases |popped|
  {
    if popped == [] then Some(LoopState(open0, []))
    else
      match Replay(g, open0, closed0, popped[..|popped| - 1], d)
      case None => None
      case Some(s) =>
        var n := popped[|popped| - 1];
        if s.open == [] || s.open[|s.open| - 1] != n then None
        else
          var rest := s.open[..|s.open| - 1];
          var closed := closed0 + Keys(s.dispatched);
          if n.Key() !in closed && Dispatches(g, n, d) then
            Some(LoopState(rest + Opened(g, n, closed + {n.Key()}, d), s.dispatched + [n]))
          else
            Some(LoopState(rest, s.dispatched))
  }

  /** Popping the last open node `n` extends the replay by one step. */
  lemma ReplayStep(g: NetGraph, open0: seq<NetNode>, closed0: set<LayerId>, popped: seq<NetNode>, d: Direction,
                   open: seq<NetNode>, dispatched: seq<NetNode>, n: NetNode)
    requires Replay(g, open0, closed0, popped, d) == Some(LoopState(open + [n], dispatched))
    ensures var closed := closed0 + Keys(dispatched);
            Replay(g, open0, closed0, popped + [n], d)
            == if n.Key() !in closed && Dispatches(g, n, d)
               then Some(LoopState(open + Opened(g, n, closed + {n.Key()}, d), dispatched + [n]))
               else Some(LoopState(open, dispatched))
  {
    assert (popped + [n])[..|popped|] == popped;
    assert (open + [n])[..|open|] == open;
  }

  /** A run loop dispatches only nodes it popped, and no more nodes than it popped. */
  lemma {:induction false} ReplayDispatchesPopped(g: NetGraph, open0: seq<NetNode>, closed0: set<LayerId>,
                                                  popped: seq<NetNode>, d: Direction)
    requires Replay(g, open0, closed0, popped, d).Some?
    ensures var s := Replay(g, open0, closed0, popped, d).value;
            |s.dispatched| <= |popped|
            && forall i | 0 <= i < |s.dispatched| :: s.dispatched[i] in popped
    decreases |popped|
  {
    if popped != [] {
      var init := popped[..|popped| - 1];
      ReplayDispatchesPopped(g, open0, closed0, init, d);
      assert forall x | x in init :: x in popped;
    }
  }

  /** The loop of `isNodeReady`: false at the first node that is not closed. */
  method CheckAllClosed(s: seq<NetNode>, closed: set<LayerId>) returns (r: bool)
    ensures r <==> AllClosed(s, closed)
  {
    for i := 0 to |s|
      invariant forall j | 0 <= j < i :: s[j].Key() in closed
    {
      if s[i].Key() !in closed {
        return false;
      }
    }
    return true;
  }

  /** `isNodeReady(node)` for a direction: resolve the buffer, then check its other side. */
  method IsReady(g: NetGraph, n: NetNode, closed: set<LayerId>, d: Direction) returns (r: bool)
    ensures r == Ready(g, n, closed, d)
  {
    r := CheckAllClosed(Predecessors(g, n, d), closed);
  }

  /** The filter loop: keep, in order, the nodes of `s` that are ready. */
  method CollectReady(g: NetGraph, s: seq<NetNode>, closed: set<LayerId>, d: Direction) returns (r: seq<NetNode>)
    ensures r == FilterReady(g, s, closed, d)
  {
    r := [];
    for i := 0 to |s|
      invariant r == FilterReady(g, s[..i], closed, d)
    {
      var ready := IsReady(g, s[i], closed, d);
      FilterReadyStep(g, s, i, closed, d);
      r := r + (if ready then [s[i]] else []);
    }
    assert s[..|s|] == s;
  }
}
