/** Optional values: a pending drag kind, a canvas rectangle that may be missing. */
module Wrappers {
  datatype Option<+T> = None | Some(value: T)
}

/** The placed-gate record shared by the circuit editor, the experiment page and the
    result view (each of the three components declares the same `Gate` shape). */
module Gates {

  /** The closed set of gate kinds offered by the palette. */
  datatype GateKind = H | X | Y | Z | CNOT

  /** A canvas coordinate in pixels. */
  datatype Position = Position(x: int, y: int)

  /** A placed gate: an opaque identifier, its kind, its canvas position and its qubit line. */
  datatype Gate = Gate(id: string, kind: GateKind, position: Position, qubit: int)

  /** Number of qubit lines drawn on the canvas (lines 0, 1 and 2). */
  const QubitCount: int := 3

  /** Vertical distance between two qubit lines, and offset of line 0. */
  const LineSpacing: int := 80
  const LineOffset: int := 40

  /** The canonical vertical coordinate of a qubit line. */
  function LineY(qubit: int): int
  {
    qubit * LineSpacing + LineOffset
  }
}
