/** The circuit placement engine of the quantum circuit editor: an ordered list of placed
    gates, the gate kind being dragged from the palette, and the drop rule that clamps the
    pointer position and snaps a new gate past a neighbour on the same qubit line. */
module Editor {
  import opened Wrappers
  import opened Gates

  /** Smallest x a dropped gate may have (the left margin of the canvas). */
  const MinX: int := 60

  /** Horizontal distance under which two gates on one line count as overlapping. */
  const SnapDistance: int := 40

  function Abs(n: int): nat
  {
    if n < 0 then -n else n
  }

  /** The unsnapped x of a drop: the pointer's offset into the canvas, clamped to the margin. */
  function CandidateX(clientX: int, left: int): (x: int)
    ensures x >= MinX && x >= clientX - left
    ensures x == MinX || x == clientX - left
  {
    if clientX - left > MinX then clientX - left else MinX
  }

  /** Does gate `g` trigger a snap for a drop on `qubit` at candidate `x`? */
  predicate Near(g: Gate, qubit: int, x: int)
  {
    Abs(g.position.x - x) < SnapDistance && g.qubit == qubit
  }

  /** The x of a gate dropped on `qubit` at candidate `x`: the single pass over `gates` in list
      order overwrites the result at every near gate, so the last near gate decides; every
      comparison is made against the unsnapped `x`. */
  function SnappedX(gates: seq<Gate>, qubit: int, x: int): (r: int)
    ensures x <= r < x + 2 * SnapDistance
  {
    if |gates| == 0 then x
    else if Near(gates[|gates| - 1], qubit, x) then gates[|gates| - 1].position.x + SnapDistance
    else SnappedX(gates[..|gates| - 1], qubit, x)
  }

  /** The snap rule when no gate near the candidate sits on the line: the candidate stays. */
  lemma {:induction false} SnapWithoutNeighbour(gates: seq<Gate>, qubit: int, x: int)
    requires forall j :: 0 <= j < |gates| ==> !Near(gates[j], qubit, x)
    ensures SnappedX(gates, qubit, x) == x
  {
    if |gates| > 0 {
      var prefix := gates[..|gates| - 1];
      assert forall j :: 0 <= j < |prefix| ==> prefix[j] == gates[j];
      SnapWithoutNeighbour(prefix, qubit, x);
    }
  }

  /** The snap rule otherwise: the gate lands one snap distance past the LAST near gate in
      list order, whatever the earlier near gates are. */
  lemma {:induction false} SnapPastLastNeighbour(gates: seq<Gate>, qubit: int, x: int, i: nat)
    requires i < |gates| && Near(gates[i], qubit, x)
    requires forall j :: i < j < |gates| ==> !Near(gates[j], qubit, x)
    ensures SnappedX(gates, qubit, x) == gates[i].position.x + SnapDistance
  {
    if i < |gates| - 1 {
      var prefix := gates[..|gates| - 1];
      assert forall j :: 0 <= j < |prefix| ==> prefix[j] == gates[j];
      SnapPastLastNeighbour(prefix, qubit, x, i);
    }
  }

  /** The gates of `gates` on line `qubit`, in list order. */
  function OnLine(gates: seq<Gate>, qubit: int): (r: seq<Gate>)
    ensures |r| <= |gates|
    ensures forall i :: 0 <= i < |r| ==> r[i].qubit == qubit
  {
    if |gates| == 0 then []
    else
      OnLine(gates[..|gates| - 1], qubit) +
      (if gates[|gates| - 1].qubit == qubit then [gates[|gates| - 1]] else [])
  }

  /** Gates on other qubit lines never influence where a new gate lands. */
  lemma {:induction false} SnapIgnoresOtherLines(gates: seq<Gate>, qubit: int, x: int)
    ensures SnappedX(gates, qubit, x) == SnappedX(OnLine(gates, qubit), qubit, x)
  {
    if |gates| > 0 {
      var prefix, last := gates[..|gates| - 1], gates[|gates| - 1];
      SnapIgnoresOtherLines(prefix, qubit, x);
      if last.qubit == qubit {
        var lined := OnLine(prefix, qubit) + [last];
        assert OnLine(gates, qubit) == lined;
        assert lined[..|lined| - 1] == OnLine(prefix, qubit);
      } else {
        assert OnLine(gates, qubit) == OnLine(prefix, qubit) + [];
        assert OnLine(gates, qubit) == OnLine(prefix, qubit);
      }
    }
  }

  /** Two drops at the same spot of a line with no gate near it land exactly one snap
      distance apart. */
  lemma SecondDropSnapsOnce(gates: seq<Gate>, first: Gate, qubit: int, x: int)
    requires forall j :: 0 <= j < |gates| ==> !Near(gates[j], qubit, x)
    requires first.qubit == qubit && first.position.x == SnappedX(gates, qubit, x)
    ensures SnappedX(gates + [first], qubit, x) == first.position.x + SnapDistance
  {
    SnapWithoutNeighbour(gates, qubit, x);
  }

  /** The pass is not repeated: a third drop at that same spot is compared with the unsnapped
      x only, so it lands on exactly the x of the second gate. */
  lemma {:induction false} ThirdDropCanCollide(gates: seq<Gate>, first: Gate, second: Gate, qubit: int, x: int)
    requires forall j :: 0 <= j < |gates| ==> !Near(gates[j], qubit, x)
    requires first.qubit == qubit && first.position.x == SnappedX(gates, qubit, x)
    requires second.qubit == qubit && second.position.x == SnappedX(gates + [first], qubit, x)
    ensures SnappedX(gates + [first, second], qubit, x) == second.position.x
  {
    SnapWithoutNeighbour(gates, qubit, x);
    var two := gates + [first, second];
    assert two[..|two| - 1] == gates + [first];
  }

  /** The invariant of every placed gate: right of the margin, on one of the canvas lines,
      and drawn at its line's canonical height. */
  predicate WellPlaced(g: Gate)
  {
    g.position.x >= MinX && 0 <= g.qubit < QubitCount && g.position.y == LineY(g.qubit)
  }

  predicate AllWellPlaced(gates: seq<Gate>)
  {
    forall i :: 0 <= i < |gates| ==> WellPlaced(gates[i])
  }

  /** The gate a successful drop appends: the dragged kind on the drop line, at the line's
      height, at the snapped x. */
  function DroppedGate(gates: seq<Gate>, id: string, kind: GateKind, qubit: int, clientX: int, left: int): (g: Gate)
    requires 0 <= qubit < QubitCount
    ensures WellPlaced(g)
    ensures g.id == id && g.kind == kind && g.qubit == qubit && g.position.y == LineY(qubit)
    ensures CandidateX(clientX, left) <= g.position.x < CandidateX(clientX, left) + 2 * SnapDistance
  {
    Gate(id, kind, Position(SnappedX(gates, qubit, CandidateX(clientX, left)), LineY(qubit)), qubit)
  }

  /** The `forEach` pass of the drop handler. */
  method SnapScan(gates: seq<Gate>, qubit: int, x: int) returns (snappedX: int)
    ensures snappedX == SnappedX(gates, qubit, x)
  {
    snappedX := x;
    var k := 0;
    while k < |gates|
      invariant 0 <= k <= |gates|
      invariant snappedX == SnappedX(gates[..k], qubit, x)
    {
      assert gates[..k + 1][..k] == gates[..k];
      if Abs(gates[k].position.x - x) < SnapDistance && gates[k].qubit == qubit {
        snappedX := gates[k].position.x + SnapDistance;
      }
      k := k + 1;
    }
    assert gates[..k] == gates;
  }

  /** The gate list with every gate carrying `id` filtered out. */
  function Without(gates: seq<Gate>, id: string): (r: seq<Gate>)
    ensures |r| <= |gates|
  {
    if |gates| == 0 then []
    else (if gates[0].id == id then [] else [gates[0]]) + Without(gates[1..], id)
  }

  /** Removal keeps exactly the gates whose id differs. */
  lemma {:induction false} WithoutMembers(gates: seq<Gate>, id: string)
    ensures forall g :: g in Without(gates, id) <==> g in gates && g.id != id
  {
    if |gates| > 0 {
      WithoutMembers(gates[1..], id);
      assert gates == [gates[0]] + gates[1..];
    }
  }

  /** Removal keeps the order of the gates that stay: it distributes over concatenation. */
  lemma {:induction false} WithoutKeepsOrder(a: seq<Gate>, b: seq<Gate>, id: string)
    ensures Without(a + b, id) == Without(a, id) + Without(b, id)
  {
    if |a| > 0 {
      var head := if a[0].id == id then [] else [a[0]];
      WithoutKeepsOrder(a[1..], b, id);
      assert (a + b)[0] == a[0] && (a + b)[1..] == a[1..] + b;
      calc {
        Without(a + b, id);
        head + Without(a[1..] + b, id);
        head + (Without(a[1..], id) + Without(b, id));
        (head + Without(a[1..], id)) + Without(b, id);
      }
    } else {
      assert a + b == b;
    }
  }

  /** Removing an id no gate carries changes nothing. */
  lemma {:induction false} WithoutAbsent(gates: seq<Gate>, id: string)
    requires forall i :: 0 <= i < |gates| ==> gates[i].id != id
    ensures Without(gates, id) == gates
  {
    if |gates| > 0 {
      WithoutAbsent(gates[1..], id);
    }
  }

  /** Removing the same id twice is the same as removing it once. */
  lemma WithoutIdempotent(gates: seq<Gate>, id: string)
    ensures Without(Without(gates, id), id) == Without(gates, id)
  {
    var once := Without(gates, id);
    WithoutMembers(gates, id);
    forall i | 0 <= i < |once|
      ensures once[i].id != id
    {
      assert once[i] in once;
    }
    WithoutAbsent(once, id);
  }

  /** Removal keeps every remaining gate well placed. */
  lemma {:induction false} WithoutKeepsPlacement(gates: seq<Gate>, id: string)
    requires AllWellPlaced(gates)
    ensures AllWellPlaced(Without(gates, id))
  {
    var r := Without(gates, id);
    WithoutMembers(gates, id);
    forall i | 0 <= i < |r|
      ensures WellPlaced(r[i])
    {
      assert r[i] in r;
      var j :| 0 <= j < |gates| && gates[j] == r[i];
    }
  }

  /** The simulate button is enabled exactly when the circuit has a gate and no simulation runs. */
  predicate CanRunSimulation(gates: seq<Gate>, isSimulating: bool)
  {
    |gates| > 0 && !isSimulating
  }

  /** The editor's state: the placed gates, the palette kind being dragged and the drag flag. */
  class QuantumCircuitEditor {
    var gates: seq<Gate>
    var draggedGate: Option<GateKind>
    var isDragging: bool

    ghost predicate Valid()
      reads this
    {
      AllWellPlaced(gates)
    }

    constructor ()
      ensures Valid()
      ensures gates == [] && draggedGate == None && !isDragging
    {
      gates := [];
      draggedGate := None;
      isDragging := false;
    }

    /** Picking a gate up from the palette records its kind and raises the drag flag. */
    method DragStart(kind: GateKind)
      requires Valid()
      modifies this
      ensures Valid()
      ensures draggedGate == Some(kind) && isDragging && gates == old(gates)
    {
      draggedGate := Some(kind);
      isDragging := true;
    }

    /** The end of a drag forgets the pending kind and lowers the drag flag. */
    method DragEnd()
      requires Valid()
      modifies this
      ensures Valid()
      ensures draggedGate == None && !isDragging && gates == old(gates)
    {
      draggedGate := None;
      isDragging := false;
    }

    /** A drop on line `qubit`. `left` is the canvas rectangle's left edge when the canvas is
        mounted; `id` is the fresh identifier the handler generates. Without a pending kind or
        a canvas the handler returns before touching anything. */
    method Drop(qubit: int, clientX: int, left: Option<int>, id: string)
      requires Valid()
      requires 0 <= qubit < QubitCount
      modifies this
      ensures Valid()
      ensures old(draggedGate).None? || left.None? ==>
        gates == old(gates) && draggedGate == old(draggedGate) && isDragging == old(isDragging)
      ensures old(draggedGate).Some? && left.Some? ==>
        gates == old(gates) + [DroppedGate(old(gates), id, old(draggedGate).value, qubit, clientX, left.value)] &&
        draggedGate == None && !isDragging
    {
      if draggedGate.None? {
        return;
      }
      if left.None? {
        return;
      }
      var x := CandidateX(clientX, left.value);
      var y := LineY(qubit);
      var snappedX := SnapScan(gates, qubit, x);
      var newGate := Gate(id, draggedGate.value, Position(snappedX, y), qubit);
      gates := gates + [newGate];
      draggedGate := None;
      isDragging := false;
    }

    /** The remove button of a placed gate. */
    method RemoveGate(id: string)
      requires Valid()
      modifies this
      ensures Valid()
      ensures gates == Without(old(gates), id)
      ensures draggedGate == old(draggedGate) && isDragging == old(isDragging)
    {
      WithoutKeepsPlacement(gates, id);
      gates := Without(gates, id);
    }

    /** The clear button. */
    method ClearCircuit()
      requires Valid()
      modifies this
      ensures Valid()
      ensures gates == []
      ensures draggedGate == old(draggedGate) && isDragging == old(isDragging)
    {
      gates := [];
    }
  }
}
