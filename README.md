# Quantum dreamscape labs: the experiment flow, modelled in Dafny

The repository is a browser front end that walks a learner through a short quantum-computing
lesson, lets them drag gates onto a three-line circuit canvas, and then shows a canned
measurement chart. This project models the four pieces of it that hold behaviour:

- **Circuit placement engine** (`circuit_editor.dfy`, module `Editor`): the editor's ordered gate
  list, the palette kind being dragged, the drop rule (clamp the pointer to the left margin of
  60, put the gate at its line's height `qubit*80+40`, and snap it 40 past the last gate on the
  same line lying within 40 of the unsnapped x, in one pass), removal by id, clearing, and when
  the simulate button is enabled. The editor is a class whose methods update its fields; the
  snap pass is a loop proved against the function `SnappedX`.
- **Learning walkthrough** (`learning_section.dfy`, module `Learning`): the shown step and the
  set of acknowledged steps; a press either advances or calls the completion callback.
- **Phase sequencer** (`experiment_page.dfy`, module `Sequencer`): the page's phase
  (learning, experiment, results), gate snapshot and simulating flag. The delayed completion
  of a simulation is an explicit `TimerFired` event; `pendingTimers` counts the callbacks
  scheduled and not yet run. `Wired` says which events the rendered page can deliver in a
  state, since each handler is handed only to its own phase's view.
- **Result classifier** (`result_visualization.dfy`, module `Classifier`): the lookup from the
  gate list to one of three fixed probability tables.

`gates.dfy` holds the `Gate` record that three of the components declare identically, the
line geometry, and a small `Option` type.

The timer callback (`src/pages/ExperimentPage.tsx:54-57`) has no guard against running after
a reset, and the model follows the code: `Sequencer.TimerAfterResetShowsResults` shows that
such a callback still switches to the results. `Sequencer.RunStaysReachable` shows that along
the events the page actually wires this cannot happen. In every reachable state at most one
callback is pending, and only while simulating in the experiment phase. A reset is only offered
in the results phase, where none is pending.

## Model

| member | source | states |
|---|---|---|
| `Editor.CandidateX` | src/components/QuantumCircuitEditor.tsx:57 | the unsnapped x is at least the margin 60 and at least the pointer's offset into the canvas, and equals one of them (the maximum) |
| `Editor.SnappedX` | src/components/QuantumCircuitEditor.tsx:61-68 | snapping only moves a gate right, by less than two snap distances: `x <= r < x + 80` |
| `Editor.SnapWithoutNeighbour` | src/components/QuantumCircuitEditor.tsx:61-68 | with no gate on the drop line within 40 of the candidate x, the new gate keeps the candidate x |
| `Editor.SnapPastLastNeighbour` | src/components/QuantumCircuitEditor.tsx:61-68 | otherwise it lands 40 past the last such gate in list order; every comparison uses the unsnapped x |
| `Editor.SnapIgnoresOtherLines` | src/components/QuantumCircuitEditor.tsx:65 | the snapped x over the whole list equals the snapped x over the gates of the drop line alone |
| `Editor.SecondDropSnapsOnce` | src/components/QuantumCircuitEditor.tsx:61-68 | two drops at one spot of an otherwise clear line land exactly 40 apart |
| `Editor.ThirdDropCanCollide` | src/components/QuantumCircuitEditor.tsx:61-68 | the pass is not repeated: a third drop at that spot lands on exactly the second gate's x |
| `Editor.DroppedGate` | src/components/QuantumCircuitEditor.tsx:57-75 | the appended gate has the dragged kind, the drop line, the given id, y = qubit*80+40, an x within the snap band of the candidate, and is well placed |
| `Editor.SnapScan` | src/components/QuantumCircuitEditor.tsx:62-68 | the `forEach` loop computes exactly `SnappedX` |
| `Editor.Without` | src/components/QuantumCircuitEditor.tsx:82-84 | removal never lengthens the list |
| `Editor.WithoutMembers` | src/components/QuantumCircuitEditor.tsx:83 | removal keeps exactly the gates whose id differs |
| `Editor.WithoutKeepsOrder` | src/components/QuantumCircuitEditor.tsx:83 | removal distributes over concatenation, so the remaining gates keep their order |
| `Editor.WithoutAbsent` | src/components/QuantumCircuitEditor.tsx:82-84 | removing an id no gate carries changes nothing |
| `Editor.WithoutIdempotent` | src/components/QuantumCircuitEditor.tsx:82-84 | removing the same id twice is the same as once |
| `Editor.WithoutKeepsPlacement` | src/components/QuantumCircuitEditor.tsx:82-84 | removal keeps every remaining gate well placed |
| `Editor.QuantumCircuitEditor.constructor` | src/components/QuantumCircuitEditor.tsx:21-23 | the editor starts with no gates, no dragged kind and the drag flag down |
| `Editor.QuantumCircuitEditor.DragStart` | src/components/QuantumCircuitEditor.tsx:34-38 | drag start records the kind and raises the flag, gates unchanged |
| `Editor.QuantumCircuitEditor.DragEnd` | src/components/QuantumCircuitEditor.tsx:40-43 | drag end clears the kind and the flag, gates unchanged |
| `Editor.QuantumCircuitEditor.Drop` | src/components/QuantumCircuitEditor.tsx:50-80 | with no dragged kind or no canvas nothing changes; otherwise exactly `DroppedGate` is appended after the unchanged old gates and the drag state is cleared; every gate stays at x >= 60 and at its line's height |
| `Editor.QuantumCircuitEditor.RemoveGate` | src/components/QuantumCircuitEditor.tsx:82-84 | the gate list becomes `Without(old gates, id)`, the drag state is unchanged, placement is kept |
| `Editor.QuantumCircuitEditor.ClearCircuit` | src/components/QuantumCircuitEditor.tsx:86-88 | the gate list becomes empty |
| `Learning.CompleteStep` | src/components/LearningSection.tsx:27-37 | a press adds the shown step to the acknowledged set and removes nothing; it calls `onComplete` exactly when `currentStep < stepCount - 1` fails, and then stays; otherwise it advances by one |
| `Learning.RangeMembers` | src/components/LearningSection.tsx:25 | `Range(k)` is exactly the indices 0 to k-1 |
| `Learning.InitialConsistent` | src/components/LearningSection.tsx:24-25 | the initial state is consistent |
| `Learning.CompleteStepKeepsConsistent` | src/components/LearningSection.tsx:27-39 | a press keeps the shown step an index of a non-empty list and the acknowledged set between `Range(step)` and `Range(step+1)` |
| `Learning.CompletionsBeforeLast` | src/components/LearningSection.tsx:24-37 | after k < n presses the shown step is k and the acknowledged set is exactly 0 to k-1 |
| `Learning.FiresExactlyOnLast` | src/components/LearningSection.tsx:32-36 | among the first n presses, only the n-th calls `onComplete` |
| `Learning.AllStepsCompleted` | src/components/LearningSection.tsx:27-37 | after n presses the last step is still shown and all n steps are acknowledged |
| `Learning.ButtonLabel` | src/components/LearningSection.tsx:107 | the button shows one of its two labels, "Start Experiment" exactly on the last index |
| `Learning.LabelAnnouncesCompletion` | src/components/LearningSection.tsx:107 | the button reads "Start Experiment" iff pressing it calls `onComplete` |
| `Learning.LearningSection.constructor` | src/components/LearningSection.tsx:24-25 | the section starts at step 0 with nothing acknowledged |
| `Learning.LearningSection.CurrentStepIndex` | src/components/LearningSection.tsx:39 | the shown step indexes the step list when it is non-empty |
| `Learning.LearningSection.HandleStepComplete` | src/components/LearningSection.tsx:27-37 | the handler adds the shown step to the set, then advances by one before the last step and otherwise stays and reports the callback |
| `Sequencer.Step` | src/pages/ExperimentPage.tsx:45-64 | the four handlers (learning complete, simulate, timer callback, reset) as one transition; each simulate schedules one callback, each callback run consumes one, and nothing cancels one; only a simulate puts a new snapshot in place |
| `Sequencer.Wired` | src/pages/ExperimentPage.tsx:103-130 | which events the rendered page can deliver: learning complete only in the learning phase, simulate only in the experiment phase and only when the editor's button is enabled (`canRunSimulation`, QuantumCircuitEditor.tsx:90 and 195-196: a non-empty circuit, not simulating), reset only in the results phase, and a callback only once scheduled; a wired callback run is defined and a wired simulate never carries an empty circuit. Learning complete is over-approximated as deliverable at any step of the learning phase, while the learning section only calls it on its last step |
| `Sequencer.SimulationOnlyWhenIdle` | src/components/QuantumCircuitEditor.tsx:195-196 | the enabled simulate button never hands over an empty circuit and never schedules a second callback: in a reachable state a wired request has a non-empty circuit, no pending callback and the experiment phase, and leaves exactly one callback pending |
| `Sequencer.InitialReachable` | src/pages/ExperimentPage.tsx:17-19 | the initial page (learning, no gates, not simulating, no callback) satisfies the reachable-state invariant |
| `Sequencer.WiredStep` | src/pages/ExperimentPage.tsx:103-130 | a wired event keeps the invariant; a simulate keeps the phase and every other wired event moves it exactly one step: learning to experiment, experiment to results, results to learning |
| `Sequencer.RunStaysReachable` | src/pages/ExperimentPage.tsx:45-64 | every run of wired events keeps at most one pending callback, only while simulating in the experiment phase, and gives the results view a non-empty snapshot |
| `Sequencer.RunFollowsFlow` | src/pages/ExperimentPage.tsx:103-130 | after a wired run the phase is the start phase advanced along the flow once per event that is not a simulate request |
| `Sequencer.ResetLeavesNoTimer` | src/pages/ExperimentPage.tsx:60-64 | a wired reset returns the page to exactly its initial state, with no callback left pending |
| `Sequencer.TimerAfterResetShowsResults` | src/pages/ExperimentPage.tsx:54-57 | the callback has no guard: run after a reset it still shows the results, with an empty snapshot |
| `Sequencer.ExperimentPage.constructor` | src/pages/ExperimentPage.tsx:17-19 | the page starts in learning with no gates and not simulating |
| `Sequencer.ExperimentPage.HandleLearningComplete` | src/pages/ExperimentPage.tsx:45-47 | the phase becomes experiment and nothing else changes |
| `Sequencer.ExperimentPage.HandleSimulation` | src/pages/ExperimentPage.tsx:49-58 | the passed gates become the snapshot, the flag is raised, one callback is scheduled, the phase is unchanged |
| `Sequencer.ExperimentPage.OnTimerFired` | src/pages/ExperimentPage.tsx:54-57 | the flag is lowered and the phase becomes results, snapshot unchanged |
| `Sequencer.ExperimentPage.ResetExperiment` | src/pages/ExperimentPage.tsx:60-64 | the phase becomes learning, the snapshot empty and the flag down; pending callbacks are not cancelled |
| `Classifier.GenerateResults` | src/components/ResultVisualization.tsx:19-40 | every table is non-empty, has distinct state labels and probabilities in (0, 1] summing to exactly 1 |
| `Classifier.TableSelection` | src/components/ResultVisualization.tsx:23-39 | H and CNOT give the two-state 1/2, 1/2 table; H alone the four-state 1/2, 1/4, 1/8, 1/8 table; no H the single certain table |
| `Classifier.DependsOnlyOnHAndCnot` | src/components/ResultVisualization.tsx:20-21 | two circuits that agree on the presence of H and of CNOT get the same table |
| `Classifier.HasKindOfMultiset` | src/components/ResultVisualization.tsx:20-21 | the presence of a kind depends only on the multiset of gates |
| `Classifier.PermutationInvariant` | src/components/ResultVisualization.tsx:20-21 | reordering the gates does not change the table |
| `Classifier.HasKindIgnoresOtherKind` | src/components/ResultVisualization.tsx:20-21 | inserting a gate of another kind does not change whether a kind is present |
| `Classifier.PauliGatesIrrelevant` | src/components/ResultVisualization.tsx:20-21 | inserting or removing an X, Y or Z gate anywhere does not change the table |

## Left out

- Rendering, styling, icons, animation particles and the charts: presentational only.
- The navigation bar, the landing page, the experiment cards and the styling configuration:
  no behaviour.
- Pixel coordinates are doubles in the source and `int` here; the clamp and snap comparisons
  are the same.
- DOM calls: the canvas rectangle is an optional `left` parameter of `Drop`, and the
  drag-over handler only sets browser drop effects.
- Gate ids: the handler builds them from the clock and a random number, so `Drop` takes the
  id as a parameter. Uniqueness is not claimed, because the code does not ensure it.
- `Editor.QuantumCircuitEditor.Drop` requires the qubit to be 0, 1 or 2, because the canvas wires
  the drop handler only to those three lines.
- The 2000 ms delay and real time: a scheduled callback is a `TimerFired` event that may
  occur at any point after it was scheduled.
- React batching and stale closures: each handler is modelled as reading and writing the
  current state.
- The editor is unmounted when the page leaves the experiment phase, which resets its
  gate list. This remounting is not modelled; the editor and the page are separate objects.
- The amplitudes (`Math.sqrt`) and the `toFixed` percentages of the results view:
  floating-point display values. The probabilities are exact reals.
