/**
 * The breathing session component: the four pieces of state it keeps, the
 * technique it was given, and the events that change them.
 */
module Session {
  import opened Types
  import opened Engine

  class BreathingSession {
    var technique: Technique
    var isActive: bool
    var currentPhaseIndex: int
    var secondsRemainingInPhase: int
    var cyclesCompleted: int

    /** The current state as a value, for the pure engine and the projections. */
    function State(): SessionState
      reads this
    {
      SessionState(isActive, currentPhaseIndex, secondsRemainingInPhase, cyclesCompleted)
    }

    /** The technique can drive the engine and the state keeps the engine invariant. */
    ghost predicate Valid()
      reads this
    {
      ValidPattern(technique.pattern) && Inv(technique.pattern, State())
    }

    /** Mounting the component: a paused session at the start of the technique's first phase. */
    constructor (t: Technique)
      requires ValidPattern(t.pattern)
      ensures Valid() && technique == t
      ensures State() == Fresh(t.pattern)
    {
      technique := t;
      isActive := false;
      currentPhaseIndex := 0;
      secondsRemainingInPhase := t.pattern[0].duration;
      cyclesCompleted := 0;
    }

    /** A new technique arrives: everything starts over, paused, whatever the previous state was. */
    method ChangeTechnique(t: Technique)
      requires ValidPattern(t.pattern)
      modifies this
      ensures Valid() && technique == t
      ensures State() == Fresh(t.pattern)
    {
      technique := t;
      currentPhaseIndex := 0;
      secondsRemainingInPhase := t.pattern[0].duration;
      cyclesCompleted := 0;
      isActive := false;
    }

    /** The start/pause/resume button: flips the running flag and nothing else. */
    method ToggleSession()
      modifies this
      ensures technique == old(technique)
      ensures State() == Toggle(old(State()))
      ensures isActive == !old(isActive)
      ensures currentPhaseIndex == old(currentPhaseIndex) && secondsRemainingInPhase == old(secondsRemainingInPhase)
      ensures cyclesCompleted == old(cyclesCompleted)
      ensures old(Valid()) ==> Valid()
    {
      isActive := !isActive;
    }

    /** Move to the next phase, reload its duration, and count a cycle when the index wraps to 0. */
    method HandlePhaseTransition()
      requires ValidPattern(technique.pattern) && 0 <= currentPhaseIndex < |technique.pattern|
      modifies this
      ensures technique == old(technique)
      ensures State() == PhaseTransition(technique.pattern, old(State()))
    {
      var nextIndex := (currentPhaseIndex + 1) % |technique.pattern|;
      if nextIndex == 0 {
        cyclesCompleted := cyclesCompleted + 1;
      }
      currentPhaseIndex := nextIndex;
      secondsRemainingInPhase := technique.pattern[nextIndex].duration;
    }

    /** One firing of the one-second timer, which runs only while the session is active. */
    method Tick()
      requires Valid() && isActive
      modifies this
      ensures Valid() && isActive && technique == old(technique)
      ensures State() == Step(technique.pattern, old(State()))
    {
      if secondsRemainingInPhase <= 1 {
        HandlePhaseTransition();
      } else {
        secondsRemainingInPhase := secondsRemainingInPhase - 1;
      }
    }

    /** n firings of the timer in a row, with no pause in between. */
    method RunTicks(n: nat)
      requires Valid() && isActive
      modifies this
      ensures Valid() && isActive && technique == old(technique)
      ensures State() == Run(technique.pattern, old(State()), n)
    {
      var i := 0;
      while i < n
        invariant 0 <= i <= n
        invariant Valid() && isActive && technique == old(technique)
        invariant State() == Run(technique.pattern, old(State()), i)
      {
        Tick();
        i := i + 1;
      }
    }
  }
}
