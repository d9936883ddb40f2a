/**
  The recurrent layer: a chain of cell copies, one per time step, linked both ways.
  The forward invocation list is the cells' lists in cell order, the backward list
  the cells' lists in reverse cell order, and each initialisation visits every cell
  once, first to last.

  The cells are modelled abstractly: a `Cell` keeps the template's sizes, its time
  step, its two links and the invocation lists it has built, and its operations
  record each visit in a `Journal`.
*/
module RNN {
  import opened Outcomes
  import opened Invocations
  import LSTM

  /** What every cell is copied from: the template's weight shape, bias count and clip value. */
  datatype CellTemplate = CellTemplate(weightsRows: nat, weightsColumns: nat, biasCount: nat, clipTo: real)

  datatype Step = ForwardInit | BackwardInit | ParametersUpdate

  /** One call of a cell operation. */
  datatype Visit = Visit(cell: Cell, step: Step)

  /** The calls made on cells so far, in order. */
  class Journal {
    var visits: seq<Visit>

    constructor()
      ensures visits == []
    {
      visits := [];
    }
  }

  class Cell {
    const template: CellTemplate
    const time: nat
    var previous: Cell?
    var next: Cell?
    var forwardInvocations: Option<seq<Invocation>>
    var backwardInvocations: Option<seq<Invocation>>

    constructor(template: CellTemplate, time: nat)
      ensures this.template == template && this.time == time
      ensures previous == null && next == null
      ensures forwardInvocations.None? && backwardInvocations.None?
    {
      this.template := template;
      this.time := time;
      previous, next := null, null;
      forwardInvocations, backwardInvocations := None, None;
    }

    function OutputSize(): int { template.biasCount / 4 }

    function InputSize(): int { template.weightsRows - template.biasCount / 4 }

    /** The cell's `forwardInvocations`, which trap until it has built them. */
    function ForwardList(): (r: Result<seq<Invocation>>)
      reads this
      ensures r.Ok? <==> forwardInvocations.Some?
      ensures r.Ok? ==> r.value == forwardInvocations.value
      ensures r.Fatal? ==> r.reason == LSTM.ForwardInitReason
    {
      if forwardInvocations.Some? then Ok(forwardInvocations.value) else Fatal(LSTM.ForwardInitReason)
    }

    /** The cell's `backwardInvocations`, which trap until it has built them. */
    function BackwardList(): (r: Result<seq<Invocation>>)
      reads this
      ensures r.Ok? <==> backwardInvocations.Some?
      ensures r.Ok? ==> r.value == backwardInvocations.value
      ensures r.Fatal? ==> r.reason == LSTM.BackwardInitReason
    {
      if backwardInvocations.Some? then Ok(backwardInvocations.value) else Fatal(LSTM.BackwardInitReason)
    }

    /** A cell initialisation: fails when the sizes do not fit the kernels' 16-bit
        parameters, otherwise it is recorded as a visit. */
    method Initialize(step: Step, batchSize: int, journal: Journal) returns (r: Result<()>)
      modifies journal
      ensures r.Ok? <==> MakeParameters(batchSize, OutputSize(), InputSize(), template.clipTo).Ok?
      ensures journal.visits == old(journal.visits) + (if r.Ok? then [Visit(this, step)] else [])
    {
      var p := MakeParameters(batchSize, OutputSize(), InputSize(), template.clipTo);
      if p.Fatal? {
        return Fatal(p.reason);
      }
      journal.visits := journal.visits + [Visit(this, step)];
      r := Ok(());
    }

    /** A cell's parameter update, recorded as a visit. */
    method EncodeParametersUpdate(journal: Journal)
      modifies journal
      ensures journal.visits == old(journal.visits) + [Visit(this, ParametersUpdate)]
    {
      journal.visits := journal.visits + [Visit(this, ParametersUpdate)];
    }
  }

  /** One visit per cell, `step` each time, in cell order. */
  function Visits(cells: seq<Cell>, step: Step): (v: seq<Visit>)
    ensures |v| == |cells|
    ensures forall i | 0 <= i < |cells| :: v[i] == Visit(cells[i], step)
  {
    seq(|cells|, i requires 0 <= i < |cells| => Visit(cells[i], step))
  }

  /** `cells.flatMap { $0.forwardInvocations }`: the lists in cell order, or the
      first cell's trap. */
  function ForwardOf(cells: seq<Cell>): (r: Result<seq<Invocation>>)
    reads cells
    ensures r.Ok? <==> forall i | 0 <= i < |cells| :: cells[i].forwardInvocations.Some?
    ensures r.Fatal? ==> r.reason == LSTM.ForwardInitReason
    decreases |cells|
  {
    if cells == [] then Ok([])
    else
      match cells[0].ForwardList()
      case Fatal(e) => Fatal(e)
      case Ok(first) =>
        match ForwardOf(cells[1..])
        case Fatal(e) => Fatal(e)
        case Ok(rest) => Ok(first + rest)
  }

  /** `cells.reverse().flatMap { $0.backwardInvocations }`, taken from the last cell
      backwards: the lists in reverse cell order, or the trap of the last cell that
      has none. */
  function BackwardOf(cells: seq<Cell>): (r: Result<seq<Invocation>>)
    reads cells
    ensures r.Ok? <==> forall i | 0 <= i < |cells| :: cells[i].backwardInvocations.Some?
    ensures r.Fatal? ==> r.reason == LSTM.BackwardInitReason
    decreases |cells|
  {
    if cells == [] then Ok([])
    else
      match cells[|cells| - 1].BackwardList()
      case Fatal(e) => Fatal(e)
      case Ok(last) =>
        match BackwardOf(cells[..|cells| - 1])
        case Fatal(e) => Fatal(e)
        case Ok(rest) => Ok(last + rest)
  }

  function Reversed<T>(s: seq<T>): (r: seq<T>)
    ensures |r| == |s|
    ensures forall i | 0 <= i < |s| :: r[i] == s[|s| - 1 - i]
  {
    if s == [] then [] else [s[|s| - 1]] + Reversed(s[..|s| - 1])
  }

  /** Concatenating the forward lists of two runs of cells concatenates the results. */
  lemma {:induction false} ForwardOfAppend(a: seq<Cell>, b: seq<Cell>)
    requires ForwardOf(a).Ok? && ForwardOf(b).Ok?
    ensures ForwardOf(a + b) == Ok(ForwardOf(a).value + ForwardOf(b).value)
    decreases |a|
  {
    if a == [] {
      assert a + b == b;
      assert ForwardOf(a).value + ForwardOf(b).value == ForwardOf(b).value;
    } else {
      var first, rest, fb := a[0].forwardInvocations.value, ForwardOf(a[1..]).value, ForwardOf(b).value;
      assert ForwardOf(a).value == first + rest;
      ForwardOfAppend(a[1..], b);
      assert (a + b)[0] == a[0] && (a + b)[1..] == a[1..] + b;
      assert ForwardOf(a + b) == Ok(first + (rest + fb));
      assert first + (rest + fb) == (first + rest) + fb;
    }
  }

  /** With every cell's list built, the forward list is those lists joined in cell order. */
  lemma {:induction false} ForwardIsCellOrder(cells: seq<Cell>)
    ensures (forall i | 0 <= i < |cells| :: cells[i].forwardInvocations.Some?) ==>
              ForwardOf(cells) == Ok(Flatten(ForwardValues(cells)))
    decreases |cells|
  {
    if cells != [] && forall i | 0 <= i < |cells| :: cells[i].forwardInvocations.Some? {
      ForwardIsCellOrder(cells[1..]);
      assert ForwardValues(cells[1..]) == ForwardValues(cells)[1..];
    }
  }

  /** With every cell's list built, the backward list is those lists joined in reverse
      cell order. */
  lemma {:induction false} BackwardIsReversedOrder(cells: seq<Cell>)
    ensures (forall i | 0 <= i < |cells| :: cells[i].backwardInvocations.Some?) ==>
              BackwardOf(cells) == Ok(Flatten(Reversed(BackwardValues(cells))))
    decreases |cells|
  {
    if cells != [] && forall i | 0 <= i < |cells| :: cells[i].backwardInvocations.Some? {
      var init := cells[..|cells| - 1];
      BackwardIsReversedOrder(init);
      assert BackwardValues(init) == BackwardValues(cells)[..|cells| - 1];
      assert Reversed(BackwardValues(cells)) == [BackwardValues(cells)[|cells| - 1]] + Reversed(BackwardValues(init));
    }
  }

  /** The forward lists of cells that have all built them. */
  function ForwardValues(cells: seq<Cell>): (r: seq<seq<Invocation>>)
    requires forall i | 0 <= i < |cells| :: cells[i].forwardInvocations.Some?
    reads cells
    ensures |r| == |cells|
    ensures forall i | 0 <= i < |cells| :: r[i] == cells[i].forwardInvocations.value
  {
    seq(|cells|, i requires 0 <= i < |cells| && cells[i].forwardInvocations.Some? reads cells =>
      cells[i].forwardInvocations.value)
  }

  /** The backward lists of cells that have all built them. */
  function BackwardValues(cells: seq<Cell>): (r: seq<seq<Invocation>>)
    requires forall i | 0 <= i < |cells| :: cells[i].backwardInvocations.Some?
    reads cells
    ensures |r| == |cells|
    ensures forall i | 0 <= i < |cells| :: r[i] == cells[i].backwardInvocations.value
  {
    seq(|cells|, i requires 0 <= i < |cells| && cells[i].backwardInvocations.Some? reads cells =>
      cells[i].backwardInvocations.value)
  }

  function Flatten(lists: seq<seq<Invocation>>): seq<Invocation> {
    if lists == [] then [] else lists[0] + Flatten(lists[1..])
  }

  /** The sum of the cells' output sizes. */
  function TotalOutput(cells: seq<Cell>): int {
    if cells == [] then 0 else cells[0].OutputSize() + TotalOutput(cells[1..])
  }

  /** The sum of the cells' input sizes. */
  function TotalInput(cells: seq<Cell>): int {
    if cells == [] then 0 else cells[0].InputSize() + TotalInput(cells[1..])
  }

  /** Copies of one template all have its sizes, so the per-cell sums are products. */
  lemma {:induction false} CopiesSum(cells: seq<Cell>, template: CellTemplate)
    requires forall i | 0 <= i < |cells| :: cells[i].template == template
    ensures TotalOutput(cells) == |cells| * (template.biasCount / 4)
    ensures TotalInput(cells) == |cells| * (template.weightsRows - template.biasCount / 4)
    decreases |cells|
  {
    if cells != [] {
      CopiesSum(cells[1..], template);
    }
  }

  class RNNLayer {
    const name: Option<string>
    var cells: seq<Cell>

    /** Cell `t` has time `t`, is a copy of `template`, and links to its neighbours. */
    ghost predicate Chain(template: CellTemplate)
      reads this, cells
    {
      && (forall t | 0 <= t < |cells| :: cells[t].template == template && cells[t].time == t)
      && (forall t | 0 <= t < |cells| :: cells[t].previous == Before(t) && cells[t].next == After(t))
    }

    /** The cell before position `t`, or null at the start. */
    function Before(t: int): Cell?
      reads this
    {
      if 0 < t <= |cells| then cells[t - 1] else null
    }

    /** The cell after position `t`, or null at the end. */
    function After(t: int): Cell?
      reads this
    {
      if -1 <= t && t + 1 < |cells| then cells[t + 1] else null
    }

    ghost predicate Distinct()
      reads this
    {
      forall i, j | 0 <= i < j < |cells| :: cells[i] != cells[j]
    }

    /** `init(cell:sequenceLength:name:)`: `sequenceLength` fresh copies of the template,
        cell `t` with time `t`, each linked to the one before and the one after. */
    constructor(template: CellTemplate, sequenceLength: nat, name: Option<string>)
      ensures this.name == name
      ensures |cells| == sequenceLength && Chain(template) && Distinct()
      ensures forall t | 0 <= t < |cells| :: fresh(cells[t])
      ensures forall t | 0 <= t < |cells| :: cells[t].forwardInvocations.None? && cells[t].backwardInvocations.None?
    {
      var made: seq<Cell> := [];
      for t := 0 to sequenceLength
        invariant |made| == t
        invariant forall i | 0 <= i < t :: fresh(made[i])
        invariant forall i | 0 <= i < t :: made[i].template == template && made[i].time == i
        invariant forall i | 0 <= i < t :: made[i].forwardInvocations.None? && made[i].backwardInvocations.None?
        invariant forall i, j | 0 <= i < j < t :: made[i] != made[j]
      {
        var c := new Cell(template, t);
        made := made + [c];
      }
      this.name := name;
      cells := made;
      new;
      for t := 0 to |made|
        invariant cells == made
        invariant forall i, j | 0 <= i < j < |made| :: made[i] != made[j]
        invariant forall i | 0 <= i < |cells| :: fresh(cells[i])
        invariant forall i | 0 <= i < |cells| :: cells[i].template == template && cells[i].time == i
        invariant forall i | 0 <= i < |cells| :: cells[i].forwardInvocations.None? && cells[i].backwardInvocations.None?
        invariant forall i | 0 <= i < t :: cells[i].previous == Before(i) && cells[i].next == After(i)
      {
        cells[t].previous := Before(t);
        cells[t].next := After(t);
      }
    }

    /** `init(cell:sequenceLength:name:)` with the length as Swift's signed `Int`: the
        range `0..<sequenceLength` traps on a negative length before any cell exists. */
    static method Init(template: CellTemplate, sequenceLength: int, name: Option<string>) returns (r: Result<RNNLayer>)
      ensures r.Fatal? <==> sequenceLength < 0
      ensures r.Fatal? ==> r.reason == LSTM.RangeReason
      ensures r.Ok? ==> fresh(r.value) && r.value.name == name
      ensures r.Ok? ==> |r.value.cells| == sequenceLength && r.value.Chain(template) && r.value.Distinct()
    {
      if sequenceLength < 0 {
        return Fatal(LSTM.RangeReason);
      }
      var l := new RNNLayer(template, sequenceLength, name);
      r := Ok(l);
    }

    /** `outputSize`: the cell count times the first cell's output size; traps when there are no cells. */
    function OutputSize(): (r: Result<int>)
      reads this
      ensures r.Ok? <==> |cells| > 0
      ensures r.Fatal? ==> r.reason == LSTM.IndexReason
      ensures r.Ok? ==> r.value == |cells| * cells[0].OutputSize()
    {
      if |cells| == 0 then Fatal(LSTM.IndexReason) else Ok(|cells| * cells[0].OutputSize())
    }

    /** `inputSize`: the cell count times the first cell's input size; traps when there are no cells. */
    function InputSize(): (r: Result<int>)
      reads this
      ensures r.Ok? <==> |cells| > 0
      ensures r.Fatal? ==> r.reason == LSTM.IndexReason
      ensures r.Ok? ==> r.value == |cells| * cells[0].InputSize()
    {
      if |cells| == 0 then Fatal(LSTM.IndexReason) else Ok(|cells| * cells[0].InputSize())
    }

    /** `forwardInvocations`: every cell's forward list, first cell first. */
    function ForwardInvocations(): (r: Result<seq<Invocation>>)
      reads this, cells
      ensures r.Ok? <==> forall t | 0 <= t < |cells| :: cells[t].forwardInvocations.Some?
      ensures r.Ok? ==> r.value == Flatten(ForwardValues(cells))
      ensures r.Fatal? ==> r.reason == LSTM.ForwardInitReason
    {
      ForwardIsCellOrder(cells);
      ForwardOf(cells)
    }

    /** `backwardInvocations`: every cell's backward list, last cell first. */
    function BackwardInvocations(): (r: Result<seq<Invocation>>)
      reads this, cells
      ensures r.Ok? <==> forall t | 0 <= t < |cells| :: cells[t].backwardInvocations.Some?
      ensures r.Ok? ==> r.value == Flatten(Reversed(BackwardValues(cells)))
      ensures r.Fatal? ==> r.reason == LSTM.BackwardInitReason
    {
      BackwardIsReversedOrder(cells);
      BackwardOf(cells)
    }

    /** `initializeForward` / `initializeBackward`: initialise the cells first to last,
        stopping at the first that fails. */
    method InitializeCells(step: Step, batchSize: int, journal: Journal) returns (r: Result<()>)
      modifies journal
      ensures r.Ok? ==> journal.visits == old(journal.visits) + Visits(cells, step)
      ensures r.Ok? <==>
                forall t | 0 <= t < |cells| ::
                  MakeParameters(batchSize, cells[t].OutputSize(), cells[t].InputSize(), cells[t].template.clipTo).Ok?
      ensures r.Fatal? ==>
                exists k | 0 <= k < |cells| ::
                  journal.visits == old(journal.visits) + Visits(cells[..k], step)
                  && MakeParameters(batchSize, cells[k].OutputSize(), cells[k].InputSize(), cells[k].template.clipTo).Fatal?
    {
      for t := 0 to |cells|
        invariant journal.visits == old(journal.visits) + Visits(cells[..t], step)
        invariant forall i | 0 <= i < t ::
                    MakeParameters(batchSize, cells[i].OutputSize(), cells[i].InputSize(), cells[i].template.clipTo).Ok?
      {
        var x := cells[t].Initialize(step, batchSize, journal);
        if x.Fatal? {
          return Fatal(x.reason);
        }
        assert cells[..t + 1] == cells[..t] + [cells[t]];
      }
      assert cells[..|cells|] == cells;
      r := Ok(());
    }

    method InitializeForward(batchSize: int, journal: Journal) returns (r: Result<()>)
      modifies journal
      ensures r.Ok? ==> journal.visits == old(journal.visits) + Visits(cells, ForwardInit)
      ensures r.Ok? <==>
                forall t | 0 <= t < |cells| ::
                  MakeParameters(batchSize, cells[t].OutputSize(), cells[t].InputSize(), cells[t].template.clipTo).Ok?
    {
      r := InitializeCells(ForwardInit, batchSize, journal);
    }

    method InitializeBackward(batchSize: int, journal: Journal) returns (r: Result<()>)
      modifies journal
      ensures r.Ok? ==> journal.visits == old(journal.visits) + Visits(cells, BackwardInit)
      ensures r.Ok? <==>
                forall t | 0 <= t < |cells| ::
                  MakeParameters(batchSize, cells[t].OutputSize(), cells[t].InputSize(), cells[t].template.clipTo).Ok?
    {
      r := InitializeCells(BackwardInit, batchSize, journal);
    }

    /** `encodeParametersUpdate`: every cell's update, first to last. */
    method EncodeParametersUpdate(journal: Journal)
      modifies journal
      ensures journal.visits == old(journal.visits) + Visits(cells, ParametersUpdate)
    {
      for t := 0 to |cells|
        invariant journal.visits == old(journal.visits) + Visits(cells[..t], ParametersUpdate)
      {
        cells[t].EncodeParametersUpdate(journal);
        assert cells[..t + 1] == cells[..t] + [cells[t]];
      }
      assert cells[..|cells|] == cells;
    }
  }

  /** A chain of copies has the sizes of its cells added up. */
  lemma ChainSizes(l: RNNLayer, template: CellTemplate)
    requires l.Chain(template) && |l.cells| > 0
    ensures l.OutputSize() == Ok(TotalOutput(l.cells))
    ensures l.InputSize() == Ok(TotalInput(l.cells))
  {
    CopiesSum(l.cells, template);
  }

  /** The links of a chain are mutual: stepping forward then back returns to the same cell. */
  lemma ChainLinksAgree(l: RNNLayer, template: CellTemplate, t: int)
    requires l.Chain(template) && 0 <= t < |l.cells|
    ensures l.cells[t].next != null ==> l.cells[t].next.previous == l.cells[t]
    ensures l.cells[t].previous != null ==> l.cells[t].previous.next == l.cells[t]
    ensures l.cells[t].next == null <==> t == |l.cells| - 1
    ensures l.cells[t].previous == null <==> t == 0
  {
    if t + 1 < |l.cells| {
      assert l.cells[t + 1].previous == l.Before(t + 1);
    }
    if t > 0 {
      assert l.cells[t - 1].next == l.After(t - 1);
    }
  }
}
