/** The result classifier of the results view: a lookup, keyed on whether the circuit holds a
    Hadamard gate and whether it holds a CNOT gate, into three fixed measurement tables. */
module Classifier {
  import opened Gates

  /** One bar of the chart: a basis-state label and its probability. */
  datatype Outcome = Outcome(state: string, probability: real)

  /** Does some gate of the circuit have kind `k`? */
  predicate HasKind(gates: seq<Gate>, k: GateKind)
  {
    exists i :: 0 <= i < |gates| && gates[i].kind == k
  }

  /** Sum of the probabilities of a table. */
  function TotalProbability(table: seq<Outcome>): real
  {
    if |table| == 0 then 0.0 else table[0].probability + TotalProbability(table[1..])
  }

  /** No two rows of a table share a state label. */
  predicate DistinctStates(table: seq<Outcome>)
  {
    forall i, j :: 0 <= i < j < |table| ==> table[i].state != table[j].state
  }

  /** H and CNOT together: the correlated pair |000> and |111>. */
  const EntangledTable: seq<Outcome> := [Outcome("|000⟩", 0.5), Outcome("|111⟩", 0.5)]

  /** H without CNOT: four outcomes weighted 1/2, 1/4, 1/8, 1/8. */
  const SuperposedTable: seq<Outcome> :=
    [Outcome("|000⟩", 0.5), Outcome("|001⟩", 0.25), Outcome("|010⟩", 0.125), Outcome("|011⟩", 0.125)]

  /** No H: the single certain outcome |000>. */
  const GroundTable: seq<Outcome> := [Outcome("|000⟩", 1.0)]

  /** The measurement table shown for a circuit. Every table is a probability distribution
      over distinct states. */
  function GenerateResults(gates: seq<Gate>): (r: seq<Outcome>)
    ensures |r| > 0 && DistinctStates(r)
    ensures forall i :: 0 <= i < |r| ==> 0.0 < r[i].probability <= 1.0
    ensures TotalProbability(r) == 1.0
  {
    var hasHadamard := HasKind(gates, H);
    var hasEntanglement := HasKind(gates, CNOT);
    if hasHadamard && hasEntanglement then EntangledTable
    else if hasHadamard then SuperposedTable
    else GroundTable
  }

  /** Which table is chosen: both kinds give the correlated pair, H alone the four outcomes,
      and without H (with or without CNOT) the single certain outcome. */
  lemma TableSelection(gates: seq<Gate>)
    ensures HasKind(gates, H) && HasKind(gates, CNOT) ==> GenerateResults(gates) == EntangledTable
    ensures HasKind(gates, H) && !HasKind(gates, CNOT) ==> GenerateResults(gates) == SuperposedTable
    ensures !HasKind(gates, H) ==> GenerateResults(gates) == GroundTable
  {
  }

  /** The result depends on nothing but the two membership tests. */
  lemma DependsOnlyOnHAndCnot(a: seq<Gate>, b: seq<Gate>)
    requires HasKind(a, H) == HasKind(b, H) && HasKind(a, CNOT) == HasKind(b, CNOT)
    ensures GenerateResults(a) == GenerateResults(b)
  {
  }

  /** Membership of a kind is a property of the multiset of gates. */
  lemma HasKindOfMultiset(a: seq<Gate>, b: seq<Gate>, k: GateKind)
    requires multiset(a) == multiset(b)
    ensures HasKind(a, k) == HasKind(b, k)
  {
    if HasKind(a, k) {
      var i :| 0 <= i < |a| && a[i].kind == k;
      assert a[i] in multiset(b);
      var j :| 0 <= j < |b| && b[j] == a[i];
    }
    if HasKind(b, k) {
      var i :| 0 <= i < |b| && b[i].kind == k;
      assert b[i] in multiset(a);
      var j :| 0 <= j < |a| && a[j] == b[i];
    }
  }

  /** Reordering the circuit does not change the result. */
  lemma PermutationInvariant(a: seq<Gate>, b: seq<Gate>)
    requires multiset(a) == multiset(b)
    ensures GenerateResults(a) == GenerateResults(b)
  {
    HasKindOfMultiset(a, b, H);
    HasKindOfMultiset(a, b, CNOT);
  }

  /** Inserting a gate of another kind does not change whether a kind is present. */
  lemma HasKindIgnoresOtherKind(front: seq<Gate>, back: seq<Gate>, g: Gate, k: GateKind)
    requires g.kind != k
    ensures HasKind(front + [g] + back, k) == HasKind(front + back, k)
  {
    var with, without := front + [g] + back, front + back;
    assert forall i :: 0 <= i < |front| ==> with[i] == front[i] && without[i] == front[i];
    assert forall i :: |front| < i < |with| ==> with[i] == back[i - |front| - 1] == without[i - 1];
    if HasKind(with, k) {
      var i :| 0 <= i < |with| && with[i].kind == k;
      if i < |front| {
        assert without[i].kind == k;
      } else if i > |front| {
        assert without[i - 1].kind == k;
      }
    }
    if HasKind(without, k) {
      var i :| 0 <= i < |without| && without[i].kind == k;
      if i < |front| {
        assert with[i].kind == k;
      } else {
        assert with[i + 1].kind == k;
      }
    }
  }

  /** Inserting (or, read backwards, removing) an X, Y or Z gate anywhere does not change the
      result. */
  lemma PauliGatesIrrelevant(front: seq<Gate>, back: seq<Gate>, g: Gate)
    requires g.kind == X || g.kind == Y || g.kind == Z
    ensures GenerateResults(front + [g] + back) == GenerateResults(front + back)
  {
    HasKindIgnoresOtherKind(front, back, g, H);
    HasKindIgnoresOtherKind(front, back, g, CNOT);
  }
}
