/** The experiment page's phase sequencer: learning, then the circuit editor, then the results,
    with a simulated analysis delay between the editor and the results. The delay is a timer
    whose callback is modelled as an explicit `TimerFired` event; `pendingTimers` counts the
    callbacks that have been scheduled and have not yet run. */
module Sequencer {
  import opened Wrappers
  import opened Gates
  import Editor

  datatype Phase = Learning | Experiment | Results

  /** The page's state: the phase shown, the gate snapshot handed to the results view, the
      simulating flag, and the number of scheduled timer callbacks. */
  datatype PageState = PageState(phase: Phase, gates: seq<Gate>, isSimulating: bool, pendingTimers: nat)

  /** The events the page reacts to: its three handlers and the timer callback. */
  datatype Event =
    | LearningCompleted
    | SimulationRequested(circuit: seq<Gate>)
    | TimerFired
    | ResetRequested

  /** The page when first rendered. */
  const Initial: PageState := PageState(Learning, [], false, 0)

  /** The phase that follows `p` along the page's flow. */
  function NextPhase(p: Phase): Phase
  {
    match p
    case Learning => Experiment
    case Experiment => Results
    case Results => Learning
  }

  /** The state after event `e`. A timer callback can only run once it has been scheduled;
      it runs without checking what happened in between. */
  function Step(s: PageState, e: Event): (t: PageState)
    requires e.TimerFired? ==> s.pendingTimers > 0
    // each request schedules one callback, each callback run consumes one, nothing cancels one
    ensures t.pendingTimers + (if e.TimerFired? then 1 else 0) ==
            s.pendingTimers + (if e.SimulationRequested? then 1 else 0)
    // only a simulation request replaces the snapshot by something other than itself or nothing
    ensures t.gates == s.gates || t.gates == [] || e.SimulationRequested?
  {
    match e
    case LearningCompleted => s.(phase := Experiment)
    case SimulationRequested(circuit) =>
      s.(gates := circuit, isSimulating := true, pendingTimers := s.pendingTimers + 1)
    case TimerFired => s.(isSimulating := false, phase := Results, pendingTimers := s.pendingTimers - 1)
    case ResetRequested => s.(phase := Learning, gates := [], isSimulating := false)
  }

  /** Can the rendered page deliver `e` in state `s`? Each handler is passed only to the view of
      its own phase, and the editor offers its gates only when the simulate button is enabled. */
  predicate Wired(s: PageState, e: Event): (r: bool)
    ensures r ==> (e.TimerFired? ==> s.pendingTimers > 0)
    ensures r && e.SimulationRequested? ==> |e.circuit| > 0
  {
    match e
    case LearningCompleted => s.phase == Learning
    case SimulationRequested(circuit) =>
      s.phase == Experiment && Editor.CanRunSimulation(circuit, s.isSimulating)
    case TimerFired => s.pendingTimers > 0
    case ResetRequested => s.phase == Results
  }

  /** The states reachable along wired events: at most one callback is pending, exactly while
      simulating, and only in the editor phase; the results view always receives a non-empty
      snapshot. */
  predicate Reachable(s: PageState)
  {
    (if s.isSimulating then s.pendingTimers == 1 && s.phase == Experiment else s.pendingTimers == 0) &&
    (s.isSimulating || s.phase == Results ==> |s.gates| > 0)
  }

  /** Runs the events in order; `None` once an event the page cannot deliver comes up. */
  function Run(s: PageState, events: seq<Event>): Option<PageState>
    decreases |events|
  {
    if |events| == 0 then Some(s)
    else if Wired(s, events[0]) then Run(Step(s, events[0]), events[1..])
    else None
  }

  lemma InitialReachable()
    ensures Reachable(Initial)
  {
  }

  /** One wired event keeps the state reachable; a simulation request keeps the phase and
      every other event moves it to the next phase: learning to experiment, experiment to
      results, results to learning. */
  lemma WiredStep(s: PageState, e: Event)
    requires Reachable(s) && Wired(s, e)
    ensures Reachable(Step(s, e))
    ensures Step(s, e).phase == if e.SimulationRequested? then s.phase else NextPhase(s.phase)
  {
  }

  /** The simulate button hands over a circuit only when it is non-empty and no callback is
      pending, and only in the editor phase, so a second callback is never scheduled. */
  lemma SimulationOnlyWhenIdle(s: PageState, circuit: seq<Gate>)
    requires Reachable(s) && Wired(s, SimulationRequested(circuit))
    ensures |circuit| > 0 && s.pendingTimers == 0 && s.phase == Experiment
    ensures Step(s, SimulationRequested(circuit)).pendingTimers == 1
  {
  }

  /** The number of events in `events` that move the phase: all but the simulation requests. */
  function PhaseMoves(events: seq<Event>): nat
  {
    if |events| == 0 then 0
    else (if events[0].SimulationRequested? then 0 else 1) + PhaseMoves(events[1..])
  }

  /** Every wired run from a reachable state ends in a reachable state. */
  lemma {:induction false} RunStaysReachable(s: PageState, events: seq<Event>)
    requires Reachable(s)
    ensures Run(s, events).Some? ==> Reachable(Run(s, events).value)
    decreases |events|
  {
    if |events| > 0 && Wired(s, events[0]) {
      WiredStep(s, events[0]);
      RunStaysReachable(Step(s, events[0]), events[1..]);
    }
  }

  /** Every wired run from a reachable state moves the phase along the flow only: after it the
      phase is the start phase advanced once per event other than a simulation request. */
  lemma {:induction false} RunFollowsFlow(s: PageState, events: seq<Event>)
    requires Reachable(s)
    requires Run(s, events).Some?
    ensures Run(s, events).value.phase == Advance(s.phase, PhaseMoves(events))
    decreases |events|
  {
    if |events| > 0 {
      var t := Step(s, events[0]);
      WiredStep(s, events[0]);
      RunFollowsFlow(t, events[1..]);
      var n := PhaseMoves(events[1..]);
      if events[0].SimulationRequested? {
        assert Run(s, events).value.phase == Advance(s.phase, n);
      } else {
        AdvanceShift(s.phase, n);
        assert Run(s, events).value.phase == Advance(s.phase, n + 1);
      }
    }
  }

  /** The phase `n` steps along the flow from `p`. */
  function Advance(p: Phase, n: nat): Phase
  {
    if n == 0 then p else NextPhase(Advance(p, n - 1))
  }

  lemma {:induction false} AdvanceShift(p: Phase, n: nat)
    ensures Advance(NextPhase(p), n) == Advance(p, n + 1)
  {
    if n > 0 {
      AdvanceShift(p, n - 1);
    }
  }

  /** In a reachable state no callback is pending outside the editor phase, so a reset (wired
      only into the results view) never leaves a callback behind. */
  lemma ResetLeavesNoTimer(s: PageState)
    requires Reachable(s) && Wired(s, ResetRequested)
    ensures Step(s, ResetRequested) == Initial
  {
  }

  /** The callback carries no guard: should it run after a reset, it still shows the results. */
  lemma TimerAfterResetShowsResults(s: PageState)
    requires s.pendingTimers > 0
    ensures Step(Step(s, ResetRequested), TimerFired).phase == Results
    ensures Step(Step(s, ResetRequested), TimerFired).gates == []
  {
  }

  /** The page component. */
  class ExperimentPage {
    var currentPhase: Phase
    var gates: seq<Gate>
    var isSimulating: bool
    var pendingTimers: nat

    function State(): PageState
      reads this
    {
      PageState(currentPhase, gates, isSimulating, pendingTimers)
    }

    constructor ()
      ensures State() == Initial
      ensures Reachable(State())
    {
      currentPhase := Learning;
      gates := [];
      isSimulating := false;
      pendingTimers := 0;
    }

    /** The learning section's completion callback. */
    method HandleLearningComplete()
      modifies this
      ensures currentPhase == Experiment
      ensures gates == old(gates) && isSimulating == old(isSimulating) && pendingTimers == old(pendingTimers)
      ensures State() == Step(old(State()), LearningCompleted)
    {
      currentPhase := Experiment;
    }

    /** The editor's simulate callback: store the snapshot, raise the flag, schedule the timer. */
    method HandleSimulation(circuitGates: seq<Gate>)
      modifies this
      ensures gates == circuitGates && isSimulating && pendingTimers == old(pendingTimers) + 1
      ensures currentPhase == old(currentPhase)
      ensures State() == Step(old(State()), SimulationRequested(circuitGates))
    {
      gates := circuitGates;
      isSimulating := true;
      pendingTimers := pendingTimers + 1;
    }

    /** The scheduled callback runs: lower the flag and show the results. */
    method OnTimerFired()
      requires pendingTimers > 0
      modifies this
      ensures !isSimulating && currentPhase == Results && pendingTimers == old(pendingTimers) - 1
      ensures gates == old(gates)
      ensures State() == Step(old(State()), TimerFired)
    {
      isSimulating := false;
      currentPhase := Results;
      pendingTimers := pendingTimers - 1;
    }

    /** The results view's reset button. Scheduled callbacks are not cancelled. */
    method ResetExperiment()
      modifies this
      ensures currentPhase == Learning && gates == [] && !isSimulating
      ensures pendingTimers == old(pendingTimers)
      ensures State() == Step(old(State()), ResetRequested)
    {
      currentPhase := Learning;
      gates := [];
      isSimulating := false;
    }
  }
}
