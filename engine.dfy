/**
 * The phase-cycle engine as a pure transition system: the session state, the
 * one-second tick with its phase transition, the pause/resume toggle and the
 * reset on a technique change, together with the invariant every tick keeps
 * and the count of elapsed seconds that pins the state down.
 */
module Engine {
  import opened Types

  /** The four pieces of session state: running flag, phase index, countdown, completed cycles. */
  datatype SessionState = SessionState(isActive: bool, phaseIndex: int, secondsRemaining: int, cyclesCompleted: int)

  /** The engine invariant: the index is in range and the countdown lies within the current phase. */
  predicate Inv(pattern: seq<BreathingPhase>, s: SessionState)
  {
    0 <= s.phaseIndex < |pattern| &&
    1 <= s.secondsRemaining <= pattern[s.phaseIndex].duration &&
    s.cyclesCompleted >= 0
  }

  /** The state a session starts in, and returns to whenever its technique changes. */
  function Fresh(pattern: seq<BreathingPhase>): (s: SessionState)
    requires ValidPattern(pattern)
    ensures Inv(pattern, s) && !s.isActive
    ensures s.phaseIndex == 0 && s.cyclesCompleted == 0
    ensures s.secondsRemaining == pattern[0].duration
  {
    SessionState(false, 0, pattern[0].duration, 0)
  }

  /** Pause when running, start or resume when paused. */
  function Toggle(s: SessionState): (r: SessionState)
    ensures r.isActive != s.isActive
    ensures r.(isActive := s.isActive) == s
  {
    s.(isActive := !s.isActive)
  }

  /** The state right after the user first presses start on a fresh session. */
  function Start(pattern: seq<BreathingPhase>): (s: SessionState)
    requires ValidPattern(pattern)
    ensures Inv(pattern, s) && s.isActive
  {
    Toggle(Fresh(pattern))
  }

  /** The index of the phase that follows phase i, wrapping after the last one. */
  function NextPhaseIndex(pattern: seq<BreathingPhase>, i: int): (j: int)
    requires 0 <= i < |pattern|
    ensures 0 <= j < |pattern|
    ensures j == 0 <==> i == |pattern| - 1
    ensures j != 0 ==> j == i + 1
  {
    (i + 1) % |pattern|
  }

  /** Moving on to the next phase: reload its full duration, count a cycle on the wrap to phase 0. */
  function PhaseTransition(pattern: seq<BreathingPhase>, s: SessionState): (r: SessionState)
    requires ValidPattern(pattern) && 0 <= s.phaseIndex < |pattern|
    ensures r.phaseIndex == NextPhaseIndex(pattern, s.phaseIndex)
    ensures 0 <= r.phaseIndex < |pattern| && r.secondsRemaining == pattern[r.phaseIndex].duration
    ensures r.isActive == s.isActive
    ensures r.cyclesCompleted == (if r.phaseIndex == 0 then s.cyclesCompleted + 1 else s.cyclesCompleted)
  {
    var next := NextPhaseIndex(pattern, s.phaseIndex);
    s.(phaseIndex := next,
       secondsRemaining := pattern[next].duration,
       cyclesCompleted := if next == 0 then s.cyclesCompleted + 1 else s.cyclesCompleted)
  }

  /** One second of a running session: count down, or move to the next phase on the last second. */
  function Step(pattern: seq<BreathingPhase>, s: SessionState): (r: SessionState)
    requires ValidPattern(pattern) && Inv(pattern, s) && s.isActive
    ensures Inv(pattern, r) && r.isActive
  {
    if s.secondsRemaining <= 1 then PhaseTransition(pattern, s)
    else s.(secondsRemaining := s.secondsRemaining - 1)
  }

  /** n consecutive ticks of a running session. */
  function Run(pattern: seq<BreathingPhase>, s: SessionState, n: nat): (r: SessionState)
    requires ValidPattern(pattern) && Inv(pattern, s) && s.isActive
    ensures Inv(pattern, r) && r.isActive
    decreases n
  {
    if n == 0 then s else Step(pattern, Run(pattern, s, n - 1))
  }

  /** Total length of the first k phases, in seconds. */
  function PrefixSum(pattern: seq<BreathingPhase>, k: nat): int
    requires k <= |pattern|
  {
    if k == 0 then 0 else PrefixSum(pattern, k - 1) + pattern[k - 1].duration
  }

  /** Length of one full traversal of the pattern, in seconds. */
  function CycleLength(pattern: seq<BreathingPhase>): int
  {
    PrefixSum(pattern, |pattern|)
  }

  /** Seconds of the current cycle already spent. */
  function Offset(pattern: seq<BreathingPhase>, s: SessionState): int
    requires 0 <= s.phaseIndex < |pattern|
  {
    PrefixSum(pattern, s.phaseIndex + 1) - s.secondsRemaining
  }

  /** Seconds of breathing the state stands for, counted from the fresh state. */
  function Elapsed(pattern: seq<BreathingPhase>, s: SessionState): int
    requires 0 <= s.phaseIndex < |pattern|
  {
    s.cyclesCompleted * CycleLength(pattern) + Offset(pattern, s)
  }

  // ---------------------------------------------------------------------------
  // The tick, one case at a time

  /** A tick above the last second counts down by exactly one and changes nothing else. */
  lemma TickCountsDown(pattern: seq<BreathingPhase>, s: SessionState)
    requires ValidPattern(pattern) && Inv(pattern, s) && s.isActive
    requires s.secondsRemaining > 1
    ensures Step(pattern, s) == s.(secondsRemaining := s.secondsRemaining - 1)
  {
  }

  /** A tick on the last second moves to the next phase (mod the pattern length) with its full duration, never 0. */
  lemma TickOnLastSecond(pattern: seq<BreathingPhase>, s: SessionState)
    requires ValidPattern(pattern) && Inv(pattern, s) && s.isActive
    requires s.secondsRemaining <= 1
    ensures var r := Step(pattern, s);
      r.phaseIndex == (s.phaseIndex + 1) % |pattern| &&
      r.secondsRemaining == pattern[r.phaseIndex].duration &&
      r.secondsRemaining >= 1
  {
  }

  /** A tick adds a cycle exactly when it wraps from the last phase to phase 0, and otherwise keeps the count. */
  lemma TickCountsCycles(pattern: seq<BreathingPhase>, s: SessionState)
    requires ValidPattern(pattern) && Inv(pattern, s) && s.isActive
    ensures var r := Step(pattern, s);
      (r.cyclesCompleted == s.cyclesCompleted + 1 <==>
        s.secondsRemaining <= 1 && r.phaseIndex == 0) &&
      (r.cyclesCompleted == s.cyclesCompleted + 1 <==>
        s.secondsRemaining <= 1 && s.phaseIndex == |pattern| - 1) &&
      (r.cyclesCompleted == s.cyclesCompleted || r.cyclesCompleted == s.cyclesCompleted + 1)
  {
  }

  /** Pausing and resuming changes nothing but the running flag, so the next tick continues where the pause froze it. */
  lemma {:induction false} PauseResumeIsTransparent(pattern: seq<BreathingPhase>, s: SessionState, n: nat, m: nat)
    requires ValidPattern(pattern) && Inv(pattern, s) && s.isActive
    ensures var paused := Toggle(Run(pattern, s, n));
      !paused.isActive &&
      paused.phaseIndex == Run(pattern, s, n).phaseIndex &&
      paused.secondsRemaining == Run(pattern, s, n).secondsRemaining &&
      Run(pattern, Toggle(paused), m) == Run(pattern, s, n + m)
  {
    var resumed := Toggle(Toggle(Run(pattern, s, n)));
    assert resumed == Run(pattern, s, n);
    RunAdditive(pattern, s, n, m);
  }

  /** Ticking n and then m times is ticking n + m times. */
  lemma {:induction false} RunAdditive(pattern: seq<BreathingPhase>, s: SessionState, n: nat, m: nat)
    requires ValidPattern(pattern) && Inv(pattern, s) && s.isActive
    ensures Run(pattern, Run(pattern, s, n), m) == Run(pattern, s, n + m)
    decreases m
  {
    if m > 0 {
      RunAdditive(pattern, s, n, m - 1);
    }
  }

  // ---------------------------------------------------------------------------
  // Elapsed seconds

  /** The prefix sums grow by at least one second per phase. */
  lemma {:induction false} PrefixSumGrows(pattern: seq<BreathingPhase>, i: nat, j: nat)
    requires ValidPattern(pattern) && i <= j <= |pattern|
    ensures PrefixSum(pattern, i) + (j - i) <= PrefixSum(pattern, j)
    decreases j
  {
    if i < j {
      PrefixSumGrows(pattern, i, j - 1);
    }
  }

  /** Within a cycle the offset lies in the current phase's slot, and the slot lies within the cycle. */
  lemma OffsetInPhase(pattern: seq<BreathingPhase>, s: SessionState)
    requires ValidPattern(pattern) && Inv(pattern, s)
    ensures PrefixSum(pattern, s.phaseIndex) <= Offset(pattern, s) < PrefixSum(pattern, s.phaseIndex + 1)
    ensures 0 <= Offset(pattern, s) < CycleLength(pattern)
  {
    PrefixSumGrows(pattern, 0, s.phaseIndex);
    PrefixSumGrows(pattern, s.phaseIndex + 1, |pattern|);
  }

  /** Every tick accounts for exactly one more second. */
  lemma StepAdvancesElapsed(pattern: seq<BreathingPhase>, s: SessionState)
    requires ValidPattern(pattern) && Inv(pattern, s) && s.isActive
    ensures Elapsed(pattern, Step(pattern, s)) == Elapsed(pattern, s) + 1
  {
    var r := Step(pattern, s);
    var c, L := s.cyclesCompleted, CycleLength(pattern);
    if s.secondsRemaining <= 1 && s.phaseIndex == |pattern| - 1 {
      assert r.phaseIndex == 0 && r.cyclesCompleted == c + 1;
      assert PrefixSum(pattern, 1) == pattern[0].duration;
      assert Offset(pattern, s) == L - 1;
      assert (c + 1) * L == c * L + L;
    }
  }

  /** n ticks account for exactly n more seconds. */
  lemma {:induction false} RunAdvancesElapsed(pattern: seq<BreathingPhase>, s: SessionState, n: nat)
    requires ValidPattern(pattern) && Inv(pattern, s) && s.isActive
    ensures Elapsed(pattern, Run(pattern, s, n)) == Elapsed(pattern, s) + n
    decreases n
  {
    if n > 0 {
      RunAdvancesElapsed(pattern, s, n - 1);
      StepAdvancesElapsed(pattern, Run(pattern, s, n - 1));
    }
  }

  /** Multiplying by a non-negative number keeps the order. */
  lemma MulMonotone(a: int, b: int, k: int)
    requires a <= b && k >= 0
    ensures a * k <= b * k
  {
  }

  /** Two states that keep the invariant and stand for the same number of seconds are the same position. */
  lemma ElapsedDeterminesState(pattern: seq<BreathingPhase>, s: SessionState, t: SessionState)
    requires ValidPattern(pattern) && Inv(pattern, s) && Inv(pattern, t)
    requires Elapsed(pattern, s) == Elapsed(pattern, t)
    ensures s.phaseIndex == t.phaseIndex
    ensures s.secondsRemaining == t.secondsRemaining
    ensures s.cyclesCompleted == t.cyclesCompleted
  {
    var L := CycleLength(pattern);
    OffsetInPhase(pattern, s);
    OffsetInPhase(pattern, t);
    if s.cyclesCompleted < t.cyclesCompleted {
      MulMonotone(s.cyclesCompleted + 1, t.cyclesCompleted, L);
      assert false;
    } else if t.cyclesCompleted < s.cyclesCompleted {
      MulMonotone(t.cyclesCompleted + 1, s.cyclesCompleted, L);
      assert false;
    }
    assert Offset(pattern, s) == Offset(pattern, t);
    if s.phaseIndex < t.phaseIndex {
      PrefixSumGrows(pattern, s.phaseIndex + 1, t.phaseIndex);
      assert false;
    } else if t.phaseIndex < s.phaseIndex {
      PrefixSumGrows(pattern, t.phaseIndex + 1, s.phaseIndex);
      assert false;
    }
  }

  /** The state with nothing elapsed is exactly the start position: first phase, full duration, no cycles. */
  lemma ElapsedZeroIffAtOrigin(pattern: seq<BreathingPhase>, s: SessionState)
    requires ValidPattern(pattern) && Inv(pattern, s)
    ensures Elapsed(pattern, s) >= 0
    ensures Elapsed(pattern, s) == 0 <==>
      s.phaseIndex == 0 && s.secondsRemaining == pattern[0].duration && s.cyclesCompleted == 0
  {
    OffsetInPhase(pattern, s);
    MulMonotone(0, s.cyclesCompleted, CycleLength(pattern));
    assert PrefixSum(pattern, 1) == pattern[0].duration;
    if Elapsed(pattern, s) == 0 {
      ElapsedDeterminesState(pattern, s, Fresh(pattern));
    }
  }

  /**
   * Where n ticks from the start leave the session: cyclesCompleted is the number of
   * whole cycles in n seconds, the index is the phase whose slot holds the remainder,
   * and the countdown is what is left of that slot.
   */
  lemma RunFromStart(pattern: seq<BreathingPhase>, n: nat)
    requires ValidPattern(pattern)
    ensures var r := Run(pattern, Start(pattern), n);
      var L := CycleLength(pattern);
      var rest := n - r.cyclesCompleted * L;
      r.cyclesCompleted * L <= n < (r.cyclesCompleted + 1) * L &&
      PrefixSum(pattern, r.phaseIndex) <= rest < PrefixSum(pattern, r.phaseIndex + 1) &&
      r.secondsRemaining == PrefixSum(pattern, r.phaseIndex + 1) - rest
  {
    var r := Run(pattern, Start(pattern), n);
    RunAdvancesElapsed(pattern, Start(pattern), n);
    OffsetInPhase(pattern, r);
    assert (r.cyclesCompleted + 1) * CycleLength(pattern) == r.cyclesCompleted * CycleLength(pattern) + CycleLength(pattern);
  }

  /** One full cycle's worth of ticks from the start returns to the start position with one cycle counted. */
  lemma OneCycleReturnsToStart(pattern: seq<BreathingPhase>)
    requires ValidPattern(pattern)
    ensures CycleLength(pattern) >= |pattern|
    ensures Run(pattern, Start(pattern), CycleLength(pattern)) == Start(pattern).(cyclesCompleted := 1)
  {
    var expected := Start(pattern).(cyclesCompleted := 1);
    PrefixSumGrows(pattern, 0, |pattern|);
    assert PrefixSum(pattern, 1) == pattern[0].duration;
    RunAdvancesElapsed(pattern, Start(pattern), CycleLength(pattern));
    ElapsedDeterminesState(pattern, Run(pattern, Start(pattern), CycleLength(pattern)), expected);
  }
}
