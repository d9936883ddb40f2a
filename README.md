# BrainCore host-side bookkeeping, in Dafny

BrainCore is a Swift neural-network library that runs its layers as Metal compute
kernels. This project models the parts of it that run on the host and decide what
the GPU is asked to do:

- **Node scheduling.** This is the worklist state that decides which network node
  may run next. It has four variants: `Instance`, `RunnerInstance`,
  `ForwardRunnerInstance` and `BackwardRunnerInstance`. Each has an open list, a
  closed set and a finished set. The backward variant runs the readiness rule in
  reverse. The shared rules live in the module `Scheduling`.
- **The layer graph.**
  - `Net` covers layer registration with id allocation and layer-kind validation.
  - It also covers connection and the forward worklist, which feeds each layer
    the concatenated outputs of its inputs.
  - `NetBuffer` and `NetNode` hold the size rules and the identity-based equality.
- **Recurrent-cell bookkeeping.**
  - `LSTMLayer` keeps a time-step ring counter `T`, creates its per-step buffer
    lists lazily and once, and builds its invocation lists.
  - `LSTMNodeLayer` shares weights between neighbouring cells and hands its
    buffers to its neighbours.
  - `RNNLayer` builds a doubly linked chain of cells and concatenates their
    invocation lists, in cell order going forward and in reverse going backward.
  - The Metal invocation builder is modelled as a counter: creating a buffer hands
    out a fresh serial number, and creating an invocation returns a record of its
    arguments.
- **The element-wise ReLU loops.** Both the `Source` version and the older
  `BrainCore` version are modelled, as in-place array updates.
- **Buffer helpers and snapshot lookups.**
  - `fillBuffer` and `arrayFromBuffer` act on a buffer modelled as an array of
    reals.
  - The two `Snapshot` types map a layer or a buffer name to a slice of a buffer,
    or to nil. A layer lookup whose range starts past the end of its buffer would
    make a buffer pointer with a negative count, which Swift refuses; the model
    treats that as a trap. Swift checks it in debug builds only, so in an
    optimised build it is undefined behaviour instead.

Swift traps become a `Fatal(reason)` outcome of `Outcomes.Result`, carrying the
source's message without the values Swift interpolates into it. These include `fatalError`, `preconditionFailure`, a failed
`precondition`, an out-of-range subscript and an overflowing integer conversion.
The callers' obligations that the source states as assertions or as undefined
behaviour are modelled as `requires`. `Double` and `Float` are modelled as `real`.

## Model

| member | source | states |
|---|---|---|
| Instances.ContainsNode | Source/Instance.swift:33 | membership by layer id: true iff some element of the list has the node's key |
| Instances.Instance.IsOpen | Source/Instance.swift:32-34 | `isOpen(n)` holds iff some open node is equal (same layer id) to `n` |
| Instances.Instance.IsClosed | Source/Instance.swift:36-38 | membership of the node's id in the closed set |
| Instances.Instance.IsFinished | Source/Instance.swift:40-42 | nothing open and the closed set equal to the finished set |
| Instances.Instance.Reset | Source/Instance.swift:44-48 | open list, closed set and finished set are all empty afterwards, so `isFinished()` holds |
| Instances.Instance.AllInputsClosed | Source/Instance.swift:59-70 | true with no input buffer, otherwise iff every producer of the input buffer is closed (the forward readiness rule) |
| Instances.Instance.AllOutputsClosed | Source/Instance.swift:81-92 | true with no output buffer, otherwise iff every consumer of the output buffer is closed (the backward readiness rule) |
| Instances.Instance.OpenOutputsOf | Source/Instance.swift:50-57 | the old open list is kept as a prefix and exactly the ready consumers are appended, in buffer order; no output buffer: nothing changes |
| Instances.Instance.OpenInputsOf | Source/Instance.swift:72-79 | the old open list is kept as a prefix and exactly the producers ready under the backward rule are appended, in buffer order; no input buffer: nothing changes |
| Instances.Instance.CloseNode | Source/Instance.swift:94-96 | the closed set grows by exactly the node's key (so closing twice equals closing once); nothing else changes |
| Instances.Instance.FinishNode | Source/Instance.swift:98-100 | the finished set grows by exactly the node's key; nothing else changes |
| RunnerInstances.RunnerInstance.Reset | Source/RunnerInstance.swift:26-30 | all three collections are empty and the instance is finished |
| RunnerInstances.RunnerInstance.IsNodeReady | Source/RunnerInstance.swift:32-43 | true with no input buffer, otherwise iff all producers of the input buffer are closed |
| RunnerInstances.RunnerInstance.CloseNode | Source/RunnerInstance.swift:45-52 | inserts the node into the closed set and appends exactly the consumers ready after that insertion, keeping the old open list as a prefix; with no output buffer only the closed set changes |
| RunnerInstances.RunnerInstance.FinishNode | Source/RunnerInstance.swift:54-56 | only the finished set grows, by the node's key |
| RunnerInstances.RunnerInstance.IsFinished | Source/RunnerInstance.swift:58-60 | nothing open and the closed set equal to the finished set |
| ForwardRunner.ForwardRunnerInstance.ProcessNodes | Source/Runner/ForwardRunnerInstance.swift:33-72 | pops from the end until the open list is empty, or until it pops a node that is not closed, is a forward layer and lacks a buffer (the trap; `ok` false, and that node is the last popped). Every node popped is one that was open at the start or that a dispatch opened, counted with multiplicity, and `pushed[i]` is exactly what closing the `i`-th dispatched node opened. Every other popped node ends closed or is not a forward layer. The closed set grows by exactly the dispatched nodes, each dispatched once, not closed before, a forward layer with both buffers. Replaying the popped list against the starting open list (`Scheduling.Replay`: each pop takes the last open node, and a pop dispatches exactly when the node is not closed, is a forward layer and has both buffers) gives the final open list and the dispatched list, so the pop order and the choice of dispatched nodes are both fixed |
| ForwardRunner.ForwardRunnerInstance.PopLast | Source/Runner/ForwardRunnerInstance.swift:35 | removes the last open node and returns it; the open list loses exactly that node |
| ForwardRunner.ForwardRunnerInstance.Dispatch | Source/Runner/ForwardRunnerInstance.swift:70 | closing a dispatched node adds its key to the closed set and appends exactly the successors that became ready; it stays dispatched once |
| ForwardRunner.ForwardRunnerInstance.SkipStep | Source/Runner/ForwardRunnerInstance.swift:36-42 | popping a node that is closed or not a forward layer keeps the loop's record: nothing is closed, the popped node is accounted for |
| ForwardRunner.ForwardRunnerInstance.StuckStep | Source/Runner/ForwardRunnerInstance.swift:44-46 | on the trap, the popped node is still accounted for and every earlier popped node keeps its settled state |
| ForwardRunner.ForwardRunnerInstance.DispatchTraceStep | Source/Runner/ForwardRunnerInstance.swift:48-70 | dispatching a node that is not closed keeps the record: the closed set gains its key and what it opened is pushed |
| ForwardRunner.ForwardRunnerInstance.Reset | Source/Runner/ForwardRunnerInstance.swift:74-78 | all three collections are empty and the instance is finished |
| ForwardRunner.ForwardRunnerInstance.IsNodeReady | Source/Runner/ForwardRunnerInstance.swift:80-91 | true with no input buffer, otherwise iff every producer is closed |
| ForwardRunner.ForwardRunnerInstance.CloseNode | Source/Runner/ForwardRunnerInstance.swift:93-100 | inserts the node and appends exactly the ready consumers of its output buffer |
| ForwardRunner.ForwardRunnerInstance.FinishNode | Source/Runner/ForwardRunnerInstance.swift:102-104 | only the finished set grows |
| ForwardRunner.ForwardRunnerInstance.IsFinished | Source/Runner/ForwardRunnerInstance.swift:106-108 | nothing open and the closed set equal to the finished set |
| BackwardRunner.BackwardRunnerInstance.ProcessNodesInQueue | Source/Runner/BackwardRunnerInstance.swift:39-85 | the same as the forward loop with backward readiness: pops until the open list is empty or it traps on a node that is not closed, is a backward or loss layer, and lacks a buffer. Every popped node was open at the start or opened by a dispatch, and `pushed` records what each dispatch opened. Every other popped node ends closed or is neither a backward nor a loss layer; only dispatched nodes are closed, each once. As in the forward loop, replaying the popped list from the starting open list (last node first) yields exactly the final open list and the dispatched list |
| BackwardRunner.BackwardRunnerInstance.PopLast | Source/Runner/BackwardRunnerInstance.swift:41 | removes the last open node and returns it; the open list loses exactly that node |
| BackwardRunner.BackwardRunnerInstance.Dispatch | Source/Runner/BackwardRunnerInstance.swift:83 | closing a dispatched node adds its key to the closed set and appends exactly the successors that became ready; it stays dispatched once |
| BackwardRunner.BackwardRunnerInstance.SkipStep | Source/Runner/BackwardRunnerInstance.swift:42-48 | popping a node that is closed or not a backward or loss layer keeps the loop's record: nothing is closed, the popped node is accounted for |
| BackwardRunner.BackwardRunnerInstance.StuckStep | Source/Runner/BackwardRunnerInstance.swift:50-52 | on the trap, the popped node is still accounted for and every earlier popped node keeps its settled state |
| BackwardRunner.BackwardRunnerInstance.DispatchTraceStep | Source/Runner/BackwardRunnerInstance.swift:54-83 | dispatching a node that is not closed keeps the record: the closed set gains its key and what it opened is pushed |
| BackwardRunner.BackwardRunnerInstance.Reset | Source/Runner/BackwardRunnerInstance.swift:87-91 | all three collections are empty and the instance is finished |
| BackwardRunner.BackwardRunnerInstance.IsNodeReady | Source/Runner/BackwardRunnerInstance.swift:93-104 | reversed rule: true with no output buffer, otherwise iff every consumer of the output buffer is closed |
| BackwardRunner.BackwardRunnerInstance.CloseNode | Source/Runner/BackwardRunnerInstance.swift:106-113 | inserts the node and appends exactly the ready producers of its input buffer |
| BackwardRunner.BackwardRunnerInstance.FinishNode | Source/Runner/BackwardRunnerInstance.swift:115-117 | only the finished set grows |
| BackwardRunner.BackwardRunnerInstance.IsFinished | Source/Runner/BackwardRunnerInstance.swift:119-121 | nothing open and the closed set equal to the finished set |
| Scheduling.FilterReady | Source/RunnerInstance.swift:49 | the filter keeps exactly the ready elements and never lengthens the list |
| Scheduling.ReadyMeaning | Source/RunnerInstance.swift:32-43 | forward readiness is "no input buffer, or all its producers closed"; backward readiness is "no output buffer, or all its consumers closed" |
| Scheduling.ReadyMonotone | Source/RunnerInstance.swift:32-43 | closing more nodes never makes a ready node unready |
| Scheduling.FilterReadyStep | Source/RunnerInstance.swift:49 | filtering a one-longer prefix appends the new element exactly when it is ready |
| Scheduling.FilterReadyKeys | Source/RunnerInstance.swift:49 | the filtered list's keys are among the original list's keys |
| Scheduling.OpenedInGraph | Source/RunnerInstance.swift:45-52 | every node opened by closing a node belongs to the graph |
| Scheduling.KeysAppend | Source/RunnerInstance.swift:50 | keys of an appended list are the union of the keys |
| Scheduling.DispatchStep | Source/Runner/ForwardRunnerInstance.swift:34-38 | dispatching a node that is not yet closed keeps "each dispatched node once, closed set = old closed set plus the dispatched keys" |
| Scheduling.OpenedByStep | Source/RunnerInstance.swift:45-52 | recording one more dispatch extends the per-dispatch list of opened nodes with what closing that node opened |
| Scheduling.ConcatAppend | Source/RunnerInstance.swift:50 | the opened lists, concatenated, grow by the newly appended list |
| Scheduling.ReplayStep | Source/Runner/ForwardRunnerInstance.swift:33-72 | one more pop of the last open node: it is dispatched, and what closing it opens is appended, exactly when it is not closed, is handled in this direction and has both buffers; otherwise it is only dropped |
| Scheduling.ReplayDispatchesPopped | Source/Runner/BackwardRunnerInstance.swift:39-85 | a replayed run dispatches only nodes it popped, and no more nodes than it popped |
| Scheduling.CheckAllClosed | Source/RunnerInstance.swift:37-42 | the loop answers true iff every node of the list is closed |
| Scheduling.IsReady | Source/RunnerInstance.swift:32-43 | the loop-based test equals the readiness predicate |
| Scheduling.CollectReady | Source/RunnerInstance.swift:49 | the loop-built list equals the filter of ready nodes |
| Nets.ValidateLayer | Source/Net.swift:49-57 | accepts iff the layer is exactly one of data, forward and sink; reports "has to be one of" iff it is none of them |
| Nets.Connect | Source/Net.swift:69-70 | appends `b` to `a`'s outputs and `a` to `b`'s inputs; every other node and every other field are unchanged |
| Nets.ConnectWellFormed | Source/Net.swift:59-71 | connecting two registered nodes keeps the graph well formed: ids below `nextID`, links registered, kinds valid, and every link recorded on both ends |
| Nets.SameShapeWellFormed | Source/Net.swift:118-137 | changing only the data a node carries keeps the graph well formed |
| Nets.ReadyAmong | Source/Net.swift:105 | keeps exactly the output nodes whose inputs are all closed, in order |
| Nets.GatherLength | Source/Net.swift:119-122 | the gathered input's length is the sum of the non-nil output counts |
| Nets.GatherPrefixLength | Source/Net.swift:119-134 | gathering a prefix of the inputs yields no more data than gathering all of them |
| Nets.GatherFrame | Source/Net.swift:118-137 | the gathered input depends only on the outputs of the listed input nodes |
| Nets.Filled | Source/Net.swift:124-134 | the gathered data fill the start of the input; a missing or too short old input is replaced by one of exactly the gathered length, a longer one keeps its tail |
| Nets.EvaluateMeaning | Source/Net.swift:90-94 | processing a node stores the gathered data as its input, and, for a forward layer, the layer's result on that input as its output |
| Nets.LoadStep | Source/Net.swift:78-82 | setting a data node's output to its layer's data keeps the forward-progress invariant |
| Nets.OrderStep | Source/Net.swift:84-100 | a node whose inputs are all loaded or processed may be appended to the processing order |
| Nets.EvaluatedStep | Source/Net.swift:84-100 | processing a new node leaves every earlier processed node's input and output as they were |
| Nets.ProcessStep | Source/Net.swift:84-100 | processing a ready node keeps the forward-progress invariant |
| Nets.ForwardMeaning | Source/Net.swift:73-101 | after `forward`: data nodes hold their layer's data; each node is processed at most once, never a data node, and after all its inputs; its input STARTS with the concatenation of its inputs' outputs, and an older, longer input keeps its tail past that; a forward layer's output is the layer applied to that input; nodes never processed are untouched |
| Nets.GatheredSize | Source/Net.swift:119-122 | the summing loop returns the gathered length |
| Nets.CopyGathered | Source/Net.swift:128-134 | the copy loop writes the gathered data at the start and leaves the rest of the input as it was |
| Nets.Net.constructor | Source/Net.swift:27-35 | an empty graph with `nextID` 0 and empty open and closed sets |
| Nets.Net.AddLayer | Source/Net.swift:37-47 | an invalid layer is fatal with the validation message and changes nothing; otherwise returns the old `nextID`, increments it, registers the new node under it, and appends it to `dataNodes` iff it is a data layer |
| Nets.Net.ConnectLayer | Source/Net.swift:59-71 | fatal "not found" when either id is unregistered; otherwise connects the two nodes and nothing else |
| Nets.Net.IsNodeReady | Source/Net.swift:109-116 | true iff every input node is closed |
| Nets.Net.CloseNode | Source/Net.swift:103-107 | inserts the node into the closed set and appends exactly its output nodes ready after that insertion |
| Nets.Net.CollectDataForNode | Source/Net.swift:118-137 | the node's new input is the concatenation of its inputs' non-nil outputs, in input order, written over the old input; only that node changes |
| Nets.Net.ProcessNode | Source/Net.swift:84-100 | one worklist step: the node's input is collected and a forward layer's output is computed from it |
| Nets.Net.EvaluateNode | Source/Net.swift:84-100 | processing a ready node extends the progress invariant and leaves processed nodes unchanged |
| Nets.Net.CloseReady | Source/Net.swift:103-107 | closing a node keeps "every open node is ready" and keeps the worklist from missing a node: every output of a closed node is closed, open or not ready |
| Nets.FrontierStep | Source/Net.swift:103-107 | closing a node and appending its ready outputs misses no node: only outputs of the closed node can have become ready |
| Nets.FrontierPair | Source/Net.swift:103-107 | the same, for one output of one closed node |
| Nets.NewlyReady | Source/Net.swift:109-116 | a node that closing one more node made ready has that node among its inputs, hence is one of its outputs |
| Nets.ScheduledStep | Source/Net.swift:84-100 | processing and closing one more ready node keeps the scheduling invariant |
| Nets.FrontierComplete | Source/Net.swift:84-107 | once nothing is open, every node that has inputs and whose inputs are all closed is closed |
| Nets.Net.Visit | Source/Net.swift:84-100 | one popped, not yet closed node: processed, closed and its ready outputs opened, with the scheduling invariant and the no-missed-node invariant kept |
| Nets.Net.LoadDataNode | Source/Net.swift:78-82 | one data node loaded, closed and its ready outputs opened; no ready output is missed |
| Nets.Net.LoadDataNodes | Source/Net.swift:78-82 | every data node loaded, in `dataNodes` order |
| Nets.PopStep | Source/Net.swift:85-89 | popping the last open node leaves the rest scheduled, the popped node ready, and nothing missed once the node is counted; a popped node that is already closed can be dropped |
| Nets.Net.PopAndVisit | Source/Net.swift:85-99 | one turn pops the last open node; a closed one is dropped with nothing else changed, any other one is processed, closed, and appended to `processed`; the scheduling invariant and the no-missed-node invariant are kept |
| Nets.Net.RunWorklist | Source/Net.swift:84-100 | the worklist runs turns until the open list is empty, keeping the scheduling invariant; at the end every output of a closed node is closed or still waits for an input, and every node open at entry is closed |
| Nets.ForwardReached | Source/Net.swift:84-100 | when every processed node has inputs, each one is an output of a data node or of a node processed before it, so no orphan node is processed |
| Nets.ForwardDone | Source/Net.swift:84-100 | once nothing is open, the graph is still well formed and every node whose inputs are all closed is closed |
| Nets.Net.Forward | Source/Net.swift:73-101 | starts from empty open and closed sets; ends with nothing open, the closed set equal to the data nodes plus the processed nodes, and the forward-progress invariant holding; every node that has inputs, all of them closed, was processed; every processed node has inputs, and each one is an output of a data node or of a node processed before it |
| NetBuffers.ProducerFoldIsSum | Source/NetBuffer.swift:16-25 | the `reduce` over the producers is the sum of their output sizes when all of them are data or forward layers, and fatal otherwise |
| NetBuffers.ConsumerFoldIsSum | Source/NetBuffer.swift:27-36 | the `reduce` over the consumers is the sum of their input sizes when all of them are forward or sink layers, and fatal otherwise |
| NetBuffers.InputSize | Source/NetBuffer.swift:16-25 | the sum of the producers' output sizes; fatal iff some producer is neither forward nor data; 0 with no producers |
| NetBuffers.OutputSize | Source/NetBuffer.swift:27-36 | the sum of the consumers' input sizes; fatal iff some consumer is neither forward nor sink; 0 with no consumers |
| NetBuffers.Size | Source/NetBuffer.swift:38-41 | defined iff both sums are defined and equal, and then it is that common value |
| NetNodes.NewNetNode | Source/NetNode.swift:12-16 | a new node has the layer's id as key, no buffers, and ranges `0...0` |
| NetNodes.InputSize | Source/NetNode.swift:18-25 | the forward or sink layer's input size, otherwise 0 |
| NetNodes.OutputSize | Source/NetNode.swift:27-34 | the forward or data layer's output size, otherwise 0 |
| Invocations.MakeParameters | Source/Layers/LSTMLayer.swift:14-19 | the `UInt16` conversions succeed iff batch size, unit count and input size are all in 0...65535, and then the fields are those values |
| Invocations.Decimal | Source/Layers/LSTMLayer.swift:102 | string interpolation of a number is a non-empty string of digits |
| Invocations.DecimalInjective | Source/Layers/LSTMLayer.swift:102 | different time steps give different buffer names |
| Invocations.CreateInvocation | Source/InvocationBuilder.swift:43-50 | the invocation records its function name, buffers, values and grid as given |
| Invocations.InvocationBuilder.CreateBuffer | Source/InvocationBuilder.swift:34-40 | returns a buffer with the given name and size that differs from every buffer created before |
| Invocations.InvocationBuilder.CreateBufferWithElements | Source/InvocationBuilder.swift:22-31 | returns a fresh buffer whose size is the element count times the size of a `Float` |
| Invocations.InvocationBuilder.CreateSeries | Source/Layers/LSTMLayer.swift:99-104 | the per-time-step loop creates exactly `count` fresh buffers, buffer `t` named with suffix `t` |
| Invocations.SeriesDistinct | Source/Layers/LSTMLayer.swift:99-104 | the buffers of a series are pairwise distinct and newer than anything created before |
| LSTM.TimeStepRing | Source/Layers/LSTMLayer.swift:185-187 | the previous and next time steps stay in range, are inverse to each other, and next is `(t + 1) % timeSteps` |
| LSTM.PreviousTimeStep | Source/Layers/LSTMLayer.swift:115 | for a step in range, the previous step is in range and the step after it (modulo `timeSteps`) is `t` |
| LSTM.NextTimeStep | Source/Layers/LSTMLayer.swift:187 | for a step in range, the next step is `(t + 1) % timeSteps` |
| LSTM.ForwardInvocationAt | Source/Layers/LSTMLayer.swift:117-132 | step `t` invokes `lstm_forward` on the seven buffers in the source's order |
| LSTM.BackwardActivationsAt | Source/Layers/LSTMLayer.swift:189-207 | step `t` invokes `lstm_backward_activations` on the ten buffers in the source's order |
| LSTM.BackwardWeightsAt | Source/Layers/LSTMLayer.swift:209-223 | step `t` invokes `lstm_backward_weights` on six buffers: the input, the state, weight deltas, bias deltas and activations of step `t`, and the activations of the next step on the ring; grid `unitCount` by `batchSize` |
| LSTM.BackwardInputsAt | Source/Layers/LSTMLayer.swift:225-236 | step `t` invokes `lstm_backward_inputs` on the input deltas, the weights and the activation deltas of step `t`; grid `inputSize` by `batchSize` |
| LSTM.At | Source/Layers/LSTMLayer.swift:55-57 | a nil list traps with the initialisation message; an index outside the list traps; otherwise the element at `T` |
| LSTM.LazyBuffer | Source/Layers/LSTMLayer.swift:93-98 | an existing buffer is kept and nothing is created; a nil one is replaced by a fresh buffer |
| LSTM.LazySeries | Source/Layers/LSTMLayer.swift:99-110 | an existing list is kept and nothing is created; a nil one becomes exactly `timeSteps` fresh buffers |
| LSTM.BuildForwardList | Source/Layers/LSTMLayer.swift:112-133 | entry `t` of the list is the forward invocation of time step `t`, for `t = 0, 1, …` |
| LSTM.BuildBackwardLists | Source/Layers/LSTMLayer.swift:181-237 | entry `i` of each of the three lists is the invocation of time step `timeSteps - 1 - i`, so the steps run in reverse |
| LSTM.ForwardRecurrence | Source/Layers/LSTMLayer.swift:114-125 | the state written at step `t` is the previous state read at the next step, wrapping at the end |
| LSTM.BackwardRecurrence | Source/Layers/LSTMLayer.swift:185-200 | in backward order, the state deltas a step writes are the next-step state deltas read by the step after it in the list |
| LSTM.SeriesCreatedSince | Source/Layers/LSTMLayer.swift:99-110 | every buffer of a new series was created during this initialisation |
| LSTM.LSTMLayer.constructor | Source/Layers/LSTMLayer.swift:80-89 | `unitCount = biases.count / 4`, `inputSize = weights.rows - unitCount`, `clipTo` defaults to 0, `T` starts at 0, nothing created; hence four weight columns per unit, input size plus unit count equal to the weight rows, two state values per unit, and `4 * unitCount <= biases.count < 4 * unitCount + 4` |
| LSTM.LSTMLayer.ForwardInvocations | Source/Layers/LSTMLayer.swift:54-60 | returns the invocation at `T` and advances `T` to `(T + 1) % timeSteps`; fatal with the initialisation message before `initializeForward` |
| LSTM.LSTMLayer.BackwardInvocations | Source/Layers/LSTMLayer.swift:66-78 | returns `[activations, weights, inputs]` at `T` and advances `T` modulo `timeSteps`; fatal before `initializeBackward` |
| LSTM.LSTMLayer.CreateForwardBuffers | Source/Layers/LSTMLayer.swift:93-110 | every buffer the forward pass needs exists afterwards; existing ones are kept, new ones are fresh, named and sized as the source creates them (`weights`, `biases`, `state<t>` of `batchSize * stateSize` floats, `activation<t>` of `batchSize * unitCount` floats) |
| LSTM.LSTMLayer.InitializeForward | Source/Layers/LSTMLayer.swift:91-134 | fails, changing nothing, iff the `UInt16` conversions fail or `timeSteps` is negative; otherwise keeps existing buffers, creates the missing ones fresh with the source's names and sizes, and builds the forward invocation of every time step |
| LSTM.LSTMLayer.CreateBackwardBuffers | Source/Layers/LSTMLayer.swift:138-179 | every buffer the backward pass needs exists afterwards; existing ones are kept, new ones are fresh with the source's names and sizes (the state and activation deltas reuse the names `state<t>` and `activation<t>`; `weightDeltas<t>` and `biasDeltas<t>` have the weights' and biases' sizes) |
| LSTM.LSTMLayer.CreateListStep | Source/Layers/LSTMLayer.swift:144-149 | one lazy list: kept if present, otherwise `timeSteps` fresh buffers, buffer `t` named the prefix followed by `t`, each of the given size |
| LSTM.LSTMLayer.InitializeBackward | Source/Layers/LSTMLayer.swift:136-239 | fails, changing nothing, iff the conversions fail or `timeSteps` is negative; otherwise builds the three backward lists in reverse time order over kept or fresh buffers, the fresh ones with the source's names and sizes, leaving the forward list alone |
| LSTMNode.ChooseSource | Source/Layers/LSTMNodeLayer.swift:91-100 | weights and biases come from the previous node iff it has both, else from the next node iff it has both, else they are created |
| LSTMNode.SharedAlongChain | Source/Layers/LSTMNodeLayer.swift:91-96 | initialising a chain front to back, every cell uses the first cell's weight and bias buffers |
| LSTMNode.LSTMNodeLayer.constructor | Source/Layers/LSTMNodeLayer.swift:75-86 | sizes derived from the weight and bias counts, the two links as given, every buffer and invocation nil |
| LSTMNode.LSTMNodeLayer.ForwardInvocations | Source/Layers/LSTMNodeLayer.swift:57-62 | the one forward invocation, or fatal before `initializeForward` |
| LSTMNode.LSTMNodeLayer.BackwardInvocations | Source/Layers/LSTMNodeLayer.swift:68-73 | `[activations, weights, inputs]` when all three exist, otherwise fatal |
| LSTMNode.LSTMNodeLayer.EncodeParametersUpdate | Source/Layers/LSTMNodeLayer.swift:209-219 | exactly two actions, weights with their deltas then biases with theirs; fatal with the weights message iff either weight buffer is missing, and with the biases message otherwise |
| LSTMNode.LSTMNodeLayer.Values | Source/Layers/LSTMNodeLayer.swift:89-124 | the values `[UInt(time), params]`, defined iff the time is non-negative and the conversions succeed |
| LSTMNode.LSTMNodeLayer.SharedParameters | Source/Layers/LSTMNodeLayer.swift:91-100 | the buffers taken from the chosen neighbour, or two fresh ones named "weights" and "biases" with the weights' and biases' sizes |
| LSTMNode.LSTMNodeLayer.PreviousState | Source/Layers/LSTMNodeLayer.swift:105-110 | the previous node's state buffer if it has one, otherwise a fresh "empty state" buffer of `batchSize * stateSize` floats |
| LSTMNode.LSTMNodeLayer.InitializeForward | Source/Layers/LSTMNodeLayer.swift:88-128 | fails, changing nothing, iff the values cannot be formed; otherwise shares or creates the parameters, creates fresh "state" and "activation" buffers of `batchSize * stateSize` and `batchSize * 4 * unitCount` floats, and builds `lstm_forward_temporal` over the seven buffers |
| LSTMNode.LSTMNodeLayer.NeighbourBuffers | Source/Layers/LSTMNodeLayer.swift:135-138 | each neighbour buffer is the neighbour's own when present, otherwise a fresh one with the source's name and size |
| LSTMNode.LSTMNodeLayer.WireNeighbours | Source/Layers/LSTMNodeLayer.swift:140-147 | the next node receives the three next-step buffers and the previous node the previous state |
| LSTMNode.LSTMNodeLayer.OwnDeltas | Source/Layers/LSTMNodeLayer.swift:153-158 | the state and activation deltas are kept when present and otherwise created fresh as "state deltas" and "activation deltas" of the source's sizes |
| LSTMNode.LSTMNodeLayer.ShareWithNeighbours | Source/Layers/LSTMNodeLayer.swift:135-147 | neighbour buffers are taken or created (with the source's names and sizes) and then handed to the neighbours |
| LSTMNode.LSTMNodeLayer.BuildBackward | Source/Layers/LSTMNodeLayer.swift:149-206 | creates fresh "weights deltas" of `4 * unitCount * (inputSize + unitCount)` floats and "biases deltas" of `4 * unitCount` floats, keeps or creates the state and activation deltas, and builds the three backward invocations over the source's buffer lists |
| LSTMNode.LSTMNodeLayer.HandOverAndBuild | Source/Layers/LSTMNodeLayer.swift:135-206 | neighbour wiring followed by the backward build, with the fresh weight and bias deltas named and sized as the source creates them; afterwards the parameter update is available iff the biases exist |
| LSTMNode.LSTMNodeLayer.InitializeBackward | Source/Layers/LSTMNodeLayer.swift:130-207 | fatal, changing nothing, when `initializeForward` has not run (or the values cannot be formed); otherwise the neighbours hold the buffers this node used, the weight and bias deltas are fresh with the source's names and sizes, and the three invocations are built |
| RNN.Cell.ForwardList | Source/Layers/RNNLayer.swift:27 | a cell's forward list, or fatal before it is initialised |
| RNN.Cell.BackwardList | Source/Layers/RNNLayer.swift:31 | a cell's backward list, or fatal before it is initialised |
| RNN.Cell.Initialize | Source/Layers/RNNLayer.swift:48 | a cell's initialisation succeeds iff its parameters can be formed, and records the visit |
| RNN.Cell.EncodeParametersUpdate | Source/Layers/RNNLayer.swift:60 | records one parameter-update visit of the cell |
| RNN.Visits | Source/Layers/RNNLayer.swift:46-62 | one visit per cell, in cell order |
| RNN.ForwardOf | Source/Layers/RNNLayer.swift:26-28 | defined iff every cell has its forward list |
| RNN.BackwardOf | Source/Layers/RNNLayer.swift:30-32 | defined iff every cell has its backward list |
| RNN.Reversed | Source/Layers/RNNLayer.swift:31 | `reverse()`: element `i` is element `n - 1 - i` |
| RNN.ForwardOfAppend | Source/Layers/RNNLayer.swift:26-28 | the forward list of two runs of cells is the concatenation of their lists |
| RNN.ForwardIsCellOrder | Source/Layers/RNNLayer.swift:26-28 | the forward list is the concatenation of the cells' lists in cell order |
| RNN.BackwardIsReversedOrder | Source/Layers/RNNLayer.swift:30-32 | the backward list is the concatenation of the cells' lists in reverse cell order |
| RNN.ForwardValues | Source/Layers/RNNLayer.swift:27 | the cells' forward lists, in cell order |
| RNN.BackwardValues | Source/Layers/RNNLayer.swift:31 | the cells' backward lists, in cell order |
| RNN.CopiesSum | Source/Layers/RNNLayer.swift:18-24 | for copies of one template the summed sizes are the count times the template's sizes |
| RNN.RNNLayer.constructor | Source/Layers/RNNLayer.swift:35-44 | `sequenceLength` new cells, cell `t` with time `t` and the template's shape, linked to `t - 1` and `t + 1` where they exist |
| RNN.RNNLayer.Init | Source/Layers/RNNLayer.swift:35-44 | the initialiser with a signed length: traps (`0..<sequenceLength`) iff the length is negative; otherwise a fresh layer of that many distinct, linked cells with the given name |
| RNN.RNNLayer.OutputSize | Source/Layers/RNNLayer.swift:18-20 | defined iff there is a cell (`cells[0]` traps otherwise), and then the cell count times the first cell's output size |
| RNN.RNNLayer.InputSize | Source/Layers/RNNLayer.swift:22-24 | defined iff there is a cell, and then the cell count times the first cell's input size |
| RNN.RNNLayer.ForwardInvocations | Source/Layers/RNNLayer.swift:26-28 | the cells' forward lists concatenated in cell order; fatal iff some cell is not initialised |
| RNN.RNNLayer.BackwardInvocations | Source/Layers/RNNLayer.swift:30-32 | the cells' backward lists concatenated in reverse cell order; fatal iff some cell is not initialised |
| RNN.RNNLayer.InitializeCells | Source/Layers/RNNLayer.swift:46-56 | visits every cell once, in order, and succeeds iff every cell does; on failure the visits are exactly the cells before the failing one |
| RNN.RNNLayer.InitializeForward | Source/Layers/RNNLayer.swift:46-50 | forward initialisation of every cell, once each, in order |
| RNN.RNNLayer.InitializeBackward | Source/Layers/RNNLayer.swift:52-56 | backward initialisation of every cell, once each, in order |
| RNN.RNNLayer.EncodeParametersUpdate | Source/Layers/RNNLayer.swift:58-62 | one parameter-update visit per cell, in order |
| RNN.ChainSizes | Source/Layers/RNNLayer.swift:18-24 | output size is the cell count times a cell's output size, and likewise the input size |
| RNN.ChainLinksAgree | Source/Layers/RNNLayer.swift:40-43 | links are mutual; only the last cell has no next and only the first has no previous |
| ReLU.Rectify | Source/Layers/ReLULayer.swift:18 | the input itself when non-negative, the slope times it when negative |
| ReLU.Factor | Source/Layers/ReLULayer.swift:25 | 1 for a positive input, the slope otherwise |
| ReLU.Rectified | Source/Layers/ReLULayer.swift:17-19 | element-wise rectification of the whole input |
| ReLU.Backpropagated | Source/Layers/ReLULayer.swift:23-27 | the first `N` output differences, each scaled by its factor |
| ReLU.RectifiedDefaultSlope | Source/Layers/ReLULayer.swift:7-18 | with slope 0, outputs are non-negative, equal the input where it is non-negative, and are 0 where it is negative; this is the clamp of -1 to 0 that the forward pass in Tests/NetTests.swift:44-63 relies on |
| ReLU.RectifiedBelowInput | Source/Layers/ReLULayer.swift:18 | for a slope in [0, 1], each output has the input's sign and is at most `max(input, 0)` |
| ReLU.BackpropagatedPositiveCopies | Tests/ReLULayerTests.swift:10-17 | with all inputs positive, `backward` copies the output differences |
| ReLU.BackpropagatedDefaultSlopeStops | Source/Layers/ReLULayer.swift:22-28 | with the default slope 0 (line 7), a non-positive input gets a zero difference |
| ReLU.ReLULayer.constructor | Source/Layers/ReLULayer.swift:7-12 | the given output size and slope 0 |
| ReLU.ReLULayer.Forward | Source/Layers/ReLULayer.swift:14-20 | every output element is the rectified input element |
| ReLU.ReLULayer.Backward | Source/Layers/ReLULayer.swift:22-28 | traps (writing nothing) iff an operand is shorter than `inputDiff`; otherwise every element of `inputDiff` is the scaled output difference |
| BrainCoreReLU.Row | BrainCore/Layers/ReLULayer.swift:14-17 | row `r` of a matrix, element by element |
| BrainCoreReLU.ReLULayer.constructor | BrainCore/Layers/ReLULayer.swift:7 | slope 0 |
| BrainCoreReLU.ReLULayer.Forward | BrainCore/Layers/ReLULayer.swift:9-18 | row 0 of the output is the rectified row 0 of the input, each column written |
| MetalUtilities.Elements | Source/Utilities.swift:12-16 | the elements a pointer covers, in order |
| MetalUtilities.UnsafeBufferPointerFromBuffer | Source/Utilities.swift:12-16 | starts at 0 with count `length / sizeof(Float)` |
| MetalUtilities.WholeBufferPointer | Source/Utilities.swift:12-16 | the whole-buffer pointer is in bounds and covers exactly the buffer's contents |
| MetalUtilities.CopyCount | Source/Utilities.swift:21 | the given count, or by default the rest of the buffer after `start` |
| MetalUtilities.ArrayFromBuffer | Source/Utilities.swift:19-23 | a trap iff the count, given or left over after `start`, is negative; otherwise the `count` elements beginning at `start` |
| MetalUtilities.ArrayFromBufferDefault | Source/Utilities.swift:19-23 | with the count omitted, the array is the buffer's contents from `start` on, and a `start` past the end traps |
| MetalUtilities.ValueArrayFromBuffer | Source/Utilities.swift:26-32 | a new array holding the same elements as `arrayFromBuffer` |
| MetalUtilities.Overwrite | Source/Utilities.swift:36-39 | positions `start + i` take `e[i]`; every other position is unchanged |
| MetalUtilities.OverwriteWithOwn | Source/Utilities.swift:35-40 | writing back what is already there changes nothing |
| MetalUtilities.OverwriteTwice | Source/Utilities.swift:35-40 | a second fill at the same place replaces the first entirely |
| MetalUtilities.FillBuffer | Source/Utilities.swift:35-40 | the buffer is overwritten at `start` and nowhere else, and reading the same range back returns the elements |
| Snapshots.NewSnapshot | Source/Snapshot.swift:19-23 | a snapshot keeps the net and forward buffers, and its backward buffers default to empty |
| Snapshots.ContentsOfForwardBuffer | Source/Snapshot.swift:25-31 | nil iff the buffer's id has no forward buffer, otherwise a pointer to all of it |
| Snapshots.ContentsOfBackwardBuffer | Source/Snapshot.swift:33-39 | nil iff the buffer's id has no backward buffer, otherwise a pointer to all of it |
| Snapshots.ContentsOfForwardBufferRef | Source/Snapshot.swift:44-49 | nil when the net has no buffer for the id, otherwise the lookup by buffer |
| Snapshots.ContentsOfBackwardBufferRef | Source/Snapshot.swift:54-59 | nil when the net has no buffer for the id, otherwise the lookup by buffer |
| Snapshots.SliceFrom | Source/Snapshot.swift:70-72 | a trap iff the lower bound lies past the buffer's end (the count would be negative); otherwise a view from the lower bound to the end |
| Snapshots.LayerContents | Source/Snapshot.swift:64-115 | nil iff the layer has no node, the node lacks that buffer, or the pass has no storage for it. Otherwise it traps (negative count) iff the range starts past the buffer's end, and else gives the slice from the range's lower bound to the end, with a non-negative count |
| Snapshots.OutputOfLayer | Source/Snapshot.swift:64-73 | nil in each of the three missing cases; a trap iff `outputRange.lowerBound` lies past the end of the forward buffer; otherwise the forward output buffer from `outputRange.lowerBound` to its end |
| Snapshots.InputOfLayer | Source/Snapshot.swift:78-87 | nil in each missing case; a trap iff `inputRange.lowerBound` lies past the end of the forward buffer; otherwise the forward input buffer from `inputRange.lowerBound` to its end |
| Snapshots.InputDeltasOfLayer | Source/Snapshot.swift:92-101 | nil in each missing case; a trap iff `inputRange.lowerBound` lies past the end of the backward buffer; otherwise the backward input buffer from `inputRange.lowerBound` to its end |
| Snapshots.OutputDeltasOfLayer | Source/Snapshot.swift:106-115 | nil in each missing case; a trap iff `outputRange.lowerBound` lies past the end of the backward buffer; otherwise the backward output buffer from `outputRange.lowerBound` to its end |
| Snapshots.ForwardOnlySnapshot | Source/Snapshot.swift:19 | a snapshot built from forward buffers only answers nil to every backward lookup |
| Snapshots.OutputAtOffsetZero | Source/Snapshot.swift:64-73 | an output range starting at 0 gives the whole forward buffer and never traps |
| Snapshots.LayerContentsInBounds | Source/Snapshot.swift:64-115 | a lookup that succeeds from a non-negative offset is in bounds, and its elements are the buffer's tail from the lower bound |
| RunnerSnapshots.NewRunnerSnapshot | Source/Runner/Snapshot.swift:17-21 | the backward list defaults to empty |
| RunnerSnapshots.FirstNamed | Source/Runner/Snapshot.swift:32-38 | the first index whose buffer has the name, or none iff no buffer has it |
| RunnerSnapshots.ContentsAt | Source/Runner/Snapshot.swift:23-29 | the buffer at the id's index, and a trap iff the index is out of range |
| RunnerSnapshots.ContentsNamed | Source/Runner/Snapshot.swift:32-39 | nil iff no buffer has the name, otherwise the contents of the first that does |
| RunnerSnapshots.ForwardContentsOfBufferNamed | Source/Runner/Snapshot.swift:32-39 | the forward contents of the first buffer with the name, or nil |
| RunnerSnapshots.BackwardContentsOfBufferNamed | Source/Runner/Snapshot.swift:42-49 | the same first-match search over the backward list |
| RunnerSnapshots.FirstNamedIgnoresLater | Source/Runner/Snapshot.swift:33-37 | buffers after the first match do not change the answer |
| RunnerSnapshots.ForwardOnlyRunnerSnapshot | Source/Runner/Snapshot.swift:17 | with the default empty backward list a named lookup is nil or traps, never a buffer |

## Left out

- NetBuffers.InputSize, NetBuffers.OutputSize and NetBuffers.Size: the trap messages leave out the interpolated layer type and sizes (Source/NetBuffer.swift:23, 34 and 39), so the producer and consumer traps carry the same text.
- MetalUtilities.ValueArrayFromBuffer: requires a non-negative count; what `ValueArray(count:)` of the Upsurge library does with a negative count is not part of this model.
- Metal is not modelled. This covers devices, pipelines, command encoding, threadgroup sizing and `wipeBuffers`. The GPU kernels and their arithmetic are left out too. An invocation is the record of its arguments.
- The throwing part of `createInvocation` is not modelled, nor the fatal error for a missing kernel function: both depend on the device's library. Allocation failure in `createBuffer` is left out too.
- The element values that `createBuffer(name:elements:)` copies into a new buffer are not modelled: only its size is.
- The buffer allocation in the `init` of every instance, and `setupOutputData`, are not modelled.
- What a sink layer's `consume` does with its data is not modelled. The model keeps the input the sink was given.
- Concurrency is not modelled. This covers the trainer, evaluator, runner and solver queues, semaphores and completion handlers.
- `Double` and `Float` are modelled as `real`: rounding is not modelled.
- Some traps happen part-way through a Swift initialiser: `UInt16(...)`, `UInt(time)` and a range with a negative bound. The model checks these before it changes any state, so a fatal outcome leaves the state as it was; `RNN.RNNLayer.Init` checks the negative length before it builds any cell.
- Three of the source's assertions and preconditions are modelled as `requires`, because the program assumes them rather than handling them:
  - the constructor preconditions `weights.columns == 4 * unitCount`;
  - the ReLU `assert`s on the operand sizes;
  - in-bounds raw-pointer access in `Source/Utilities.swift`, whose violation is undefined behaviour.
- `nodeForLayer` is not in `Source/Net.swift`. The snapshot lookups find a layer's node by its id.
- `Source/NetUtilities.swift` is not part of this model. The `Net` methods its operators call are not in `Source/Net.swift`.
- An array's capacity is modelled as its length.
- The single-precision `safe_tanh` and `sigmoid` approximations in `Source/Metal/Utilities.h` are not modelled. Their contracts are floating-point claims.
- `LSTMLayer` keeps its buffer fields and invocation fields grouped into two records, `LayerBuffers` and `LayerInvocations`. Each field of the source is one field of a record.
- RNN.RNNLayer.constructor: takes the length as a `nat`; the signed length and its trap on a negative value are modelled by `RNN.RNNLayer.Init`, which calls it.
- RNN.RNNLayer.constructor: cells are abstract `RNN.Cell` objects holding the template's shape, because `Source/Layers/RNNLayer.swift` calls an `LSTMLayer` initialiser and link fields that `LSTMLayer` does not have. The per-cell names `"\(cell.name) T\(t)"` are not modelled.
- RNN.RNNLayer.InitializeForward: what a cell's own initialisation builds is not modelled. The model records that each cell was initialised, in which order, and whether it succeeded.
