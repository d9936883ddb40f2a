/** The snapshot of the runner (Source/Runner/Snapshot.swift): Metal buffers held
    in lists indexed by network buffer id, and lookups of a network buffer by name. */
module RunnerSnapshots {
  import opened Outcomes
  import opened NetBuffers
  import opened MetalUtilities

  const IndexReason := "Index out of range"

  /** The runner's network lists its buffers; each list of Metal buffers is indexed by buffer id. */
  datatype RunnerSnapshot = RunnerSnapshot(
    netBuffers: seq<NetBuffer>,
    forwardBuffers: seq<MetalBuffer>,
    backwardBuffers: seq<MetalBuffer>)

  /** `init(net:forwardBuffers:)`: the backward list defaults to empty. */
  function NewRunnerSnapshot(netBuffers: seq<NetBuffer>, forwardBuffers: seq<MetalBuffer>): (s: RunnerSnapshot)
    ensures s.netBuffers == netBuffers && s.forwardBuffers == forwardBuffers && s.backwardBuffers == []
  {
    RunnerSnapshot(netBuffers, forwardBuffers, [])
  }

  /** `buffer.name == name` between an optional and a plain string. */
  predicate Named(b: NetBuffer, name: string) {
    b.name == Some(name)
  }

  /** The first-match search of the `for` loop: the index of the first buffer named `name`. */
  function FirstNamed(buffers: seq<NetBuffer>, name: string): (r: Option<nat>)
    ensures r.None? <==> forall i | 0 <= i < |buffers| :: !Named(buffers[i], name)
    ensures r.Some? ==> r.value < |buffers| && Named(buffers[r.value], name)
    ensures r.Some? ==> forall i | 0 <= i < r.value :: !Named(buffers[i], name)
    decreases |buffers|
  {
    if buffers == [] then None
    else if Named(buffers[0], name) then Some(0)
    else
      match FirstNamed(buffers[1..], name)
      case None => None
      case Some(i) => Some(i + 1)
  }

  /** `forwardContentsOfBuffer` / `backwardContentsOfBuffer`: subscript the list with the
      buffer's id, which traps when the id is not an index of the list. */
  function ContentsAt(list: seq<MetalBuffer>, buffer: NetBuffer): (r: Result<BufferPointer>)
    ensures r.Ok? <==> buffer.id < |list|
    ensures r.Ok? ==> r.value == UnsafeBufferPointerFromBuffer(list[buffer.id])
    ensures r.Fatal? ==> r.reason == IndexReason
  {
    if buffer.id < |list| then Ok(UnsafeBufferPointerFromBuffer(list[buffer.id])) else Fatal(IndexReason)
  }

  /** The loop of both `...ContentsOfBufferNamed` methods over one list of Metal buffers:
      nil when no buffer has the name, else the contents of the first one that has it. */
  function ContentsNamed(netBuffers: seq<NetBuffer>, list: seq<MetalBuffer>, name: string): (r: Result<Option<BufferPointer>>)
    ensures r == Ok(None) <==> forall i | 0 <= i < |netBuffers| :: !Named(netBuffers[i], name)
    ensures r.Fatal? || r.value.Some? ==>
              exists i | 0 <= i < |netBuffers| ::
                Named(netBuffers[i], name)
                && (forall j | 0 <= j < i :: !Named(netBuffers[j], name))
                && (r.Fatal? <==> netBuffers[i].id >= |list|)
                && (r.Ok? ==> r.value.value == UnsafeBufferPointerFromBuffer(list[netBuffers[i].id]))
  {
    match FirstNamed(netBuffers, name)
    case None => Ok(None)
    case Some(i) =>
      match ContentsAt(list, netBuffers[i])
      case Fatal(reason) => Fatal(reason)
      case Ok(p) => Ok(Some(p))
  }

  /** `forwardContentsOfBufferNamed`. */
  function ForwardContentsOfBufferNamed(s: RunnerSnapshot, name: string): (r: Result<Option<BufferPointer>>)
    ensures r == Ok(None) <==> forall i | 0 <= i < |s.netBuffers| :: !Named(s.netBuffers[i], name)
    ensures r.Fatal? || r.value.Some? ==>
              exists i | 0 <= i < |s.netBuffers| ::
                Named(s.netBuffers[i], name)
                && (forall j | 0 <= j < i :: !Named(s.netBuffers[j], name))
                && (r.Fatal? <==> s.netBuffers[i].id >= |s.forwardBuffers|)
                && (r.Ok? ==> r.value.value == UnsafeBufferPointerFromBuffer(s.forwardBuffers[s.netBuffers[i].id]))
  {
    ContentsNamed(s.netBuffers, s.forwardBuffers, name)
  }

  /** `backwardContentsOfBufferNamed`: the same search, reading the backward list. */
  function BackwardContentsOfBufferNamed(s: RunnerSnapshot, name: string): (r: Result<Option<BufferPointer>>)
    ensures r == Ok(None) <==> forall i | 0 <= i < |s.netBuffers| :: !Named(s.netBuffers[i], name)
    ensures r.Fatal? || r.value.Some? ==>
              exists i | 0 <= i < |s.netBuffers| ::
                Named(s.netBuffers[i], name)
                && (forall j | 0 <= j < i :: !Named(s.netBuffers[j], name))
                && (r.Fatal? <==> s.netBuffers[i].id >= |s.backwardBuffers|)
                && (r.Ok? ==> r.value.value == UnsafeBufferPointerFromBuffer(s.backwardBuffers[s.netBuffers[i].id]))
  {
    ContentsNamed(s.netBuffers, s.backwardBuffers, name)
  }

  /** Two buffers may share a name: the lookup always answers for the first, whatever follows. */
  lemma {:induction false} FirstNamedIgnoresLater(buffers: seq<NetBuffer>, more: seq<NetBuffer>, name: string)
    requires FirstNamed(buffers, name).Some?
    ensures FirstNamed(buffers + more, name) == FirstNamed(buffers, name)
    decreases |buffers|
  {
    if !Named(buffers[0], name) {
      assert (buffers + more)[1..] == buffers[1..] + more;
      FirstNamedIgnoresLater(buffers[1..], more, name);
    }
  }

  /** With the default empty backward list, a backward lookup of a name some buffer
      carries traps (the subscript is out of range); an unknown name gives nil. */
  lemma ForwardOnlyRunnerSnapshot(netBuffers: seq<NetBuffer>, forwardBuffers: seq<MetalBuffer>, name: string)
    ensures var r := BackwardContentsOfBufferNamed(NewRunnerSnapshot(netBuffers, forwardBuffers), name);
            (r == Ok(None) <==> forall i | 0 <= i < |netBuffers| :: !Named(netBuffers[i], name))
            && (r != Ok(None) ==> r == Fatal(IndexReason))
  {
  }
}
