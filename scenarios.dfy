/** Concrete runs of the engine over the technique table, derived from the elapsed-seconds theorem. */
module Scenarios {
  import opened Types
  import opened Engine
  import opened Constants
  import opened Display
  import Session

  /** 19 ticks of 4-7-8 from the start: one full cycle, back at the 4-second inhale. */
  lemma Relax478OneCycle()
    ensures var p := Techniques(Relax478).pattern;
      Run(p, Start(p), 19) == SessionState(true, 0, 4, 1) &&
      p[Run(p, Start(p), 19).phaseIndex].kind == Inhale
  {
    var p := Techniques(Relax478).pattern;
    CycleLengths();
    OneCycleReturnsToStart(p);
  }

  /** 4 ticks of box breathing from the start: the full 4-second hold, no cycle yet. */
  lemma BoxFourTicks()
    ensures var p := Techniques(BoxBreathing).pattern;
      Run(p, Start(p), 4) == SessionState(true, 1, 4, 0) &&
      p[Run(p, Start(p), 4).phaseIndex].kind == Hold
  {
    var p := Techniques(BoxBreathing).pattern;
    assert Run(p, Start(p), 1) == SessionState(true, 0, 3, 0);
    assert Run(p, Start(p), 2) == SessionState(true, 0, 2, 0);
    assert Run(p, Start(p), 3) == SessionState(true, 0, 1, 0);
  }

  /** Pausing 4-7-8 after 2 ticks and resuming: the next tick takes exactly one second off the frozen countdown. */
  lemma Relax478PauseAfterTwoTicks()
    ensures var p := Techniques(Relax478).pattern;
      var paused := Toggle(Run(p, Start(p), 2));
      paused == SessionState(false, 0, 2, 0) &&
      Step(p, Toggle(paused)).secondsRemaining == paused.secondsRemaining - 1 &&
      Step(p, Toggle(paused)).phaseIndex == paused.phaseIndex
  {
    var p := Techniques(Relax478).pattern;
    assert Run(p, Start(p), 1) == SessionState(true, 0, 3, 0);
  }

  /** Box breathing paused right after its first inhale: at the full 4-second hold, 4 seconds breathed. */
  lemma BoxPausedAtHold()
    ensures var p := Techniques(BoxBreathing).pattern;
      var s := Toggle(Run(p, Start(p), 4));
      s == SessionState(false, 1, 4, 0) && Elapsed(p, s) == 4
  {
    var p := Techniques(BoxBreathing).pattern;
    BoxFourTicks();
    assert PrefixSum(p, 2) == 8;
  }

  /**
   * In the state of BoxPausedAtHold the screen's own test takes the session for
   * an unstarted one: the button reads "Iniciar" and the start prompt replaces
   * the hold's caption.
   */
  lemma BoxPausedAtHoldLooksFreshAsWritten()
    ensures var p := Techniques(BoxBreathing).pattern;
      var s := SessionState(false, 1, 4, 0);
      ControlLabelAsWritten(p, s) == Iniciar &&
      InstructionTextAsWritten(p, s) == PressStart
  {
    var p := Techniques(BoxBreathing).pattern;
    assert p[0].duration == 4;
  }

  /** In the same state the corrected screen reads "Continuar" and shows the hold's caption. */
  lemma BoxPausedAtHoldCorrected()
    ensures var p := Techniques(BoxBreathing).pattern;
      var s := SessionState(false, 1, 4, 0);
      ControlLabel(p, s) == Continuar &&
      InstructionText(p, s) == p[1].caption
  {
    var p := Techniques(BoxBreathing).pattern;
    var s := SessionState(false, 1, 4, 0);
    assert PrefixSum(p, 2) == 8;
    assert ControlLabel(p, s) == Continuar;
    assert InstructionText(p, s) == p[1].caption;
  }

  /** 4-7-8 paused at the start of its 7-second hold: the screen's test shows "Iniciar", the corrected one "Continuar". */
  lemma Relax478PausedAtHoldLabelAsWritten()
    ensures var p := Techniques(Relax478).pattern;
      var s := Toggle(Run(p, Start(p), 4));
      s == SessionState(false, 1, 7, 0) &&
      ControlLabelAsWritten(p, s) == Iniciar &&
      ControlLabel(p, s) == Continuar
  {
    var p := Techniques(Relax478).pattern;
    assert Run(p, Start(p), 1) == SessionState(true, 0, 3, 0);
    assert Run(p, Start(p), 2) == SessionState(true, 0, 2, 0);
    assert Run(p, Start(p), 3) == SessionState(true, 0, 1, 0);
    assert Run(p, Start(p), 4) == SessionState(true, 1, 7, 0);
    ElapsedZeroIffAtOrigin(p, Toggle(Run(p, Start(p), 4)));
  }

  /** A client of the session object: the same runs, driven through its methods. */
  method Walkthrough()
  {
    var session := new Session.BreathingSession(Techniques(Relax478));
    session.ToggleSession();
    session.RunTicks(2);
    session.ToggleSession();
    Relax478PauseAfterTwoTicks();
    assert session.State() == SessionState(false, 0, 2, 0);
    session.ToggleSession();
    session.RunTicks(1);
    assert session.secondsRemainingInPhase == 1 && session.currentPhaseIndex == 0;

    session.ChangeTechnique(Techniques(BoxBreathing));
    assert session.State() == Fresh(BoxPattern);
    session.ToggleSession();
    session.RunTicks(4);
    BoxFourTicks();
    assert session.currentPhaseIndex == 1 && session.secondsRemainingInPhase == 4;

    session.ChangeTechnique(Techniques(Relax478));
    session.ToggleSession();
    session.RunTicks(19);
    Relax478OneCycle();
    assert session.currentPhaseIndex == 0 && session.cyclesCompleted == 1;
  }
}
