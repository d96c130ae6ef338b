/**
 * What the session screen derives from the engine state: the circle's visual
 * state, the instruction line and the caption of the start/pause button.
 *
 * The screen decides whether a paused session is "still at the start" from the
 * cycle count and the countdown alone. That test ignores the phase index, so a
 * session paused mid-cycle can be shown as if it had never started; the
 * definitions used by the model (InstructionText, ControlLabel) also check the
 * index, and the ...AsWritten variants keep the screen's own test.
 */
module Display {
  import opened Types
  import opened Engine

  /** The breathing circle is idle while paused and shows the current phase's kind while running. */
  datatype VisualState = Idle | Showing(kind: PhaseType)

  const PressStart: string := "Pulsa Iniciar"

  /** The three captions of the start/pause button. */
  datatype ControlCaption = Pausar | Continuar | Iniciar
  {
    /** The text the button shows. */
    function Text(): string
    {
      match this
      case Pausar => "Pausar"
      case Continuar => "Continuar"
      case Iniciar => "Iniciar"
    }
  }

  function GetVisualState(pattern: seq<BreathingPhase>, s: SessionState): (v: VisualState)
    requires 0 <= s.phaseIndex < |pattern|
    ensures v == Idle <==> !s.isActive
    ensures v.Showing? ==> v.kind == pattern[s.phaseIndex].kind
  {
    if !s.isActive then Idle else Showing(pattern[s.phaseIndex].kind)
  }

  /** Nothing of the technique has been breathed yet and the session is paused. */
  predicate AtStart(pattern: seq<BreathingPhase>, s: SessionState)
    requires 0 <= s.phaseIndex < |pattern|
  {
    !s.isActive && Elapsed(pattern, s) == 0
  }

  /** The screen's own test for "not started yet": paused, no cycles, countdown at the first phase's length. */
  predicate LooksFreshAsWritten(pattern: seq<BreathingPhase>, s: SessionState)
    requires |pattern| > 0
  {
    !s.isActive && s.cyclesCompleted == 0 && s.secondsRemaining == pattern[0].duration
  }

  /** The instruction line, with the screen's own test: the prompt to start, or the current phase's caption. */
  function InstructionTextAsWritten(pattern: seq<BreathingPhase>, s: SessionState): (t: string)
    requires |pattern| > 0 && 0 <= s.phaseIndex < |pattern|
    ensures LooksFreshAsWritten(pattern, s) ==> t == PressStart
    ensures !LooksFreshAsWritten(pattern, s) ==> t == pattern[s.phaseIndex].caption
  {
    if !s.isActive && s.cyclesCompleted == 0 && s.secondsRemaining == pattern[0].duration then PressStart
    else pattern[s.phaseIndex].caption
  }

  /** The button caption, with the screen's own test. */
  function ControlLabelAsWritten(pattern: seq<BreathingPhase>, s: SessionState): (l: ControlCaption)
    requires |pattern| > 0
    ensures l == Pausar <==> s.isActive
    ensures l == Iniciar <==> !s.isActive && s.cyclesCompleted <= 0 && s.secondsRemaining >= pattern[0].duration
    ensures l == Continuar <==> !s.isActive && (s.cyclesCompleted > 0 || s.secondsRemaining < pattern[0].duration)
  {
    if s.isActive then Pausar
    else if s.cyclesCompleted > 0 || s.secondsRemaining < pattern[0].duration then Continuar
    else Iniciar
  }

  /** The instruction line: the prompt to start exactly at the start, the current phase's caption otherwise. */
  function InstructionText(pattern: seq<BreathingPhase>, s: SessionState): (t: string)
    requires ValidPattern(pattern) && Inv(pattern, s)
    ensures AtStart(pattern, s) ==> t == PressStart
    ensures !AtStart(pattern, s) ==> t == pattern[s.phaseIndex].caption
  {
    ElapsedZeroIffAtOrigin(pattern, s);
    if !s.isActive && s.phaseIndex == 0 && s.cyclesCompleted == 0 && s.secondsRemaining == pattern[0].duration then PressStart
    else pattern[s.phaseIndex].caption
  }

  /** The button caption: "Pausar" while running, "Iniciar" exactly at the start, "Continuar" when paused later on. */
  function ControlLabel(pattern: seq<BreathingPhase>, s: SessionState): (l: ControlCaption)
    requires ValidPattern(pattern) && Inv(pattern, s)
    ensures l == Pausar <==> s.isActive
    ensures l == Iniciar <==> AtStart(pattern, s)
    ensures l == Continuar <==> !s.isActive && Elapsed(pattern, s) > 0
  {
    ElapsedZeroIffAtOrigin(pattern, s);
    if s.isActive then Pausar
    else if s.cyclesCompleted > 0 || s.phaseIndex > 0 || s.secondsRemaining < pattern[0].duration then Continuar
    else Iniciar
  }

  /** The fresh state, and the state after a technique change, show "Iniciar", the start prompt and an idle circle. */
  lemma FreshScreen(pattern: seq<BreathingPhase>)
    requires ValidPattern(pattern)
    ensures ControlLabel(pattern, Fresh(pattern)) == Iniciar
    ensures InstructionText(pattern, Fresh(pattern)) == PressStart
    ensures GetVisualState(pattern, Fresh(pattern)) == Idle
  {
  }

  /** The screen's test and the corrected one agree everywhere except on paused states past the first phase of the first cycle. */
  lemma AsWrittenDiffersOnlyPastFirstPhase(pattern: seq<BreathingPhase>, s: SessionState)
    requires ValidPattern(pattern) && Inv(pattern, s)
    ensures ControlLabelAsWritten(pattern, s) != ControlLabel(pattern, s) <==>
      !s.isActive && s.cyclesCompleted == 0 && s.phaseIndex > 0 && s.secondsRemaining >= pattern[0].duration
    ensures InstructionTextAsWritten(pattern, s) != InstructionText(pattern, s) ==>
      !s.isActive && s.cyclesCompleted == 0 && s.phaseIndex > 0 && s.secondsRemaining == pattern[0].duration
    ensures s.phaseIndex == 0 ==>
      InstructionTextAsWritten(pattern, s) == InstructionText(pattern, s) &&
      ControlLabelAsWritten(pattern, s) == ControlLabel(pattern, s)
  {
  }
}
