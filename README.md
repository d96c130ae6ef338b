# Breathing session engine, modelled in Dafny

The app guides a user through a breathing technique: an ordered, repeating
pattern of timed phases (inhale, hold, exhale, hold with empty lungs), each a
whole number of seconds long. The session screen keeps four pieces of state —
whether the countdown is running, the index of the current phase, the seconds
left in it and the number of completed cycles — and changes them on four
events: a one-second tick while running, the phase transition on the last
second of a phase, the start/pause/resume button, and a full reset when the
technique changes. From that state it derives the circle's visual state, the
instruction line and the caption of the start/pause button. The four
techniques the app offers are a constant table.

Files:

- `types.dfy` (module `Types`): phases, techniques, technique identifiers, and
  `ValidPattern` — a non-empty pattern whose phases last at least one second.
- `engine.dfy` (module `Engine`): the engine as a pure transition system.
  `SessionState` holds the four fields; `Fresh`, `Toggle`, `PhaseTransition`,
  `Step` (one tick) and `Run` (n ticks) are its transitions; `Inv` is the
  invariant every tick keeps (index in range, `1 <= secondsRemaining <=`
  current phase's duration). `Elapsed` counts the seconds a state stands for
  (`cycles * cycleLength + seconds spent in the current cycle`). Each tick adds
  exactly one (`StepAdvancesElapsed`), and two states that keep the invariant
  and stand for the same count are the same position (`ElapsedDeterminesState`).
  Together these give where any number of ticks from the start leaves the
  session (`RunFromStart`, `OneCycleReturnsToStart`).
- `session.dfy` (module `Session`): the component as a class `BreathingSession`
  with the technique and the four state fields. Its methods update the fields
  in place, and each states its new state as the matching `Engine` function
  of the old one.
- `display.dfy` (module `Display`): `getVisualState`, `getInstructionText` and
  the button caption (a `ControlCaption` with its text) as functions of the state.
- `constants.dfy` (module `Constants`): the technique table and the emotion
  presets, with their properties.
- `scenarios.dfy` (module `Scenarios`): concrete runs over the table, the
  concrete states that show the caption finding below, and a client method
  that drives a `BreathingSession` through the runs.
- `recommendation.dfy` (module `Recommendation`): the guaranteed outcome of the
  recommendation request.

Where the design and the code differ, the model follows the code:

- The component has no separate pause, resume or stop operations. It has one
  toggle (`ToggleSession`). Ending a session is the parent's `onFinish`
  callback.
- Nothing rejects an invalid technique. The engine's demand on its technique
  (non-empty, durations of at least one second) is a `requires`, and
  `Constants.Techniques` proves that every table entry meets it.
- The tick's state updater returns a transient `0` while the transition sets
  the next phase's duration. The model makes the transition immediate, so the
  countdown never rests at 0 (`Engine.TickOnLastSecond`).

## Model

| member | source | states |
|---|---|---|
| Engine.Fresh | components/BreathingSession.tsx:11-14 | the initial state is paused, at phase 0, with the first phase's full duration and no cycles, and it keeps the invariant |
| Engine.NextPhaseIndex | components/BreathingSession.tsx:51 | the next index is in range; it is 0 exactly when the current phase is the last one, and otherwise it is the current index plus one |
| Engine.PhaseTransition | components/BreathingSession.tsx:50-59 | the new index is the next phase index (`(i + 1) mod length`), the countdown is that phase's full duration, the running flag is kept, and a cycle is added exactly when the new index is 0, that is, when leaving the last phase |
| Engine.Toggle | components/BreathingSession.tsx:61-63 | pure form of the start/pause/resume button: the running flag flips and every other field is unchanged |
| Engine.Step | components/BreathingSession.tsx:31-39 | a tick of a running session that keeps the invariant yields a running session that keeps it: index in range, `1 <= secondsRemaining <= duration` |
| Engine.Run | components/BreathingSession.tsx:29-48 | any number of ticks keeps the invariant and the running flag |
| Engine.TickCountsDown | components/BreathingSession.tsx:32-37 | above the last second, a tick takes exactly one second off and changes neither the index nor the cycle count |
| Engine.TickOnLastSecond | components/BreathingSession.tsx:33-58 | on the last second, a tick moves to `(index + 1) mod length` and reloads that phase's full duration, which is at least 1, never 0 |
| Engine.TickCountsCycles | components/BreathingSession.tsx:50-55 | a tick adds one cycle iff it wraps to index 0 (equivalently, iff it leaves the last phase); otherwise the count is unchanged |
| Engine.RunAdditive | components/BreathingSession.tsx:29-39 | ticking n times then m times is ticking n + m times |
| Engine.PauseResumeIsTransparent | components/BreathingSession.tsx:61-63 | pausing after n ticks freezes the phase and countdown; resuming and ticking m more times is the same as n + m uninterrupted ticks |
| Engine.StepAdvancesElapsed | components/BreathingSession.tsx:31-59 | every tick accounts for exactly one more second, including the wrap that adds a cycle |
| Engine.RunAdvancesElapsed | components/BreathingSession.tsx:29-59 | n ticks account for exactly n more seconds |
| Engine.ElapsedDeterminesState | components/BreathingSession.tsx:11-14 | two states that keep the invariant and stand for the same elapsed seconds have the same index, countdown and cycle count |
| Engine.ElapsedZeroIffAtOrigin | components/BreathingSession.tsx:11-14 | elapsed time is never negative, and it is zero iff the state is at phase 0 with full duration and no cycles |
| Engine.RunFromStart | components/BreathingSession.tsx:29-59 | after n ticks from the start, the cycle count is the number of whole cycles in n seconds, the index is the phase whose slot holds the remainder, and the countdown is what is left of that slot |
| Engine.OneCycleReturnsToStart | components/BreathingSession.tsx:50-58 | one cycle length of ticks from the start returns to phase 0 with its full duration and exactly one cycle counted |
| Session.BreathingSession.constructor | components/BreathingSession.tsx:10-14 | a new session holds the technique and the fresh state, and keeps the invariant |
| Session.BreathingSession.ChangeTechnique | components/BreathingSession.tsx:20-27 | from any prior state, a technique change resets to index 0, the new first phase's duration, 0 cycles, paused |
| Session.BreathingSession.ToggleSession | components/BreathingSession.tsx:61-63 | flips the running flag and leaves index, countdown, cycles and technique unchanged; preserves validity |
| Session.BreathingSession.HandlePhaseTransition | components/BreathingSession.tsx:50-59 | updates the fields in place to the pure transition of the old state |
| Session.BreathingSession.Tick | components/BreathingSession.tsx:31-39 | allowed only while running; updates the fields to the pure tick of the old state and keeps the invariant |
| Session.BreathingSession.RunTicks | components/BreathingSession.tsx:29-48 | n timer firings leave the fields equal to n pure ticks of the old state |
| Display.GetVisualState | components/BreathingSession.tsx:66-69 | the visual state is idle iff the session is paused, and otherwise the current phase's kind |
| Display.InstructionTextAsWritten | components/BreathingSession.tsx:109-114 | the start prompt when paused with no cycles and the countdown equal to the first phase's length, the current phase's caption otherwise |
| Display.ControlLabelAsWritten | components/BreathingSession.tsx:194 | "Pausar" iff running; "Continuar" iff paused with cycles > 0 or countdown below the first phase's length; "Iniciar" iff paused with no cycles and countdown at least the first phase's length |
| Display.InstructionText | components/BreathingSession.tsx:109-114 | the start prompt exactly when paused with nothing elapsed, the current phase's caption otherwise |
| Display.ControlLabel | components/BreathingSession.tsx:194 | "Pausar" iff running, "Iniciar" iff paused with nothing elapsed, "Continuar" iff paused with time elapsed |
| Display.FreshScreen | components/BreathingSession.tsx:109-114 | the fresh state, and so the state after any technique change, shows "Iniciar", the start prompt and an idle circle |
| Display.AsWrittenDiffersOnlyPastFirstPhase | components/BreathingSession.tsx:194 | the caption as written differs from the corrected one iff paused in the first cycle past phase 0 with a countdown at least the first phase's length; at phase 0 both tests agree |
| Constants.Techniques | constants.ts:3-43 | each entry's id is its key, and each pattern is non-empty with every duration at least one second |
| Constants.EveryPatternStartsWithInhale | constants.ts:8-41 | every technique's first phase is an inhale |
| Constants.CycleLengths | constants.ts:8-41 | one cycle lasts 19 s (4-7-8), 16 s (box), 10 s (diaphragmatic) and 12 s (slow paced) |
| Constants.BoxBreathingIsSquare | constants.ts:18-23 | box breathing is four phases of 4 s: inhale, hold, exhale, hold empty |
| Constants.FiveEmotionOptions | constants.ts:45-51 | there are exactly five emotion presets, all different |
| Scenarios.Relax478OneCycle | constants.ts:8-12 | 19 ticks of 4-7-8 from the start end at the inhale with 4 s left and 1 cycle completed |
| Scenarios.BoxFourTicks | constants.ts:18-23 | 4 ticks of box breathing from the start end at the hold with 4 s left and no cycle completed |
| Scenarios.Relax478PauseAfterTwoTicks | components/BreathingSession.tsx:61-63 | 4-7-8 paused after 2 ticks has 2 s left; after resuming, the next tick leaves exactly 1 s in the same phase |
| Scenarios.BoxPausedAtHold | components/BreathingSession.tsx:32-63 | box breathing started, ticked 4 times and paused sits at the full 4-second hold with 4 s elapsed |
| Scenarios.BoxPausedAtHoldLooksFreshAsWritten | components/BreathingSession.tsx:194 | in that state the button as written reads "Iniciar" and the instruction as written is "Pulsa Iniciar" |
| Scenarios.BoxPausedAtHoldCorrected | components/BreathingSession.tsx:109-114 | in that state the corrected button reads "Continuar" and the corrected instruction is the hold's caption ("Mantén") |
| Scenarios.Relax478PausedAtHoldLabelAsWritten | components/BreathingSession.tsx:194 | 4-7-8 paused after 4 ticks is at the 7-second hold; the button as written reads "Iniciar", the corrected one "Continuar" |
| Recommendation.GetBreathingRecommendation | services/geminiService.ts:53-67 | a parsed answer is passed through; any failure yields box breathing with the fixed fallback explanation |
| Recommendation.RecommendationIsRunnable | App.tsx:117 | records the app's table lookup: whatever the answer, the technique found can drive a session (a direct consequence of `Constants.Techniques`) |

## Findings

| source | as written | input that shows it | evidently intended | confidence | as-written member | corrected member |
|---|---|---|---|---|---|---|
| components/BreathingSession.tsx:194 | a paused session reads "Iniciar" unless `cyclesCompleted > 0` or the countdown is below the first phase's length, whatever the phase index | box breathing: start, 4 ticks, pause (hold, 4 s left); or 4-7-8: start, 4 ticks, pause (hold, 7 s left) | "Iniciar" only before anything has been breathed, "Continuar" after | likely; not executed | Display.ControlLabelAsWritten | Display.ControlLabel |
| components/BreathingSession.tsx:110 | the start prompt replaces the caption whenever paused with no cycles and the countdown equal to the first phase's length, whatever the phase index | box breathing: start, 4 ticks, pause; the prompt "Pulsa Iniciar" shows instead of "Mantén" | the prompt only at the true start, the phase's caption after | likely; not executed | Display.InstructionTextAsWritten | Display.InstructionText |

## Left out

- Real time is not modelled. The one-second `setInterval`, its clearing, and React's effect scheduling and cleanup are abstracted. What remains is a `Tick` event that may happen only while the session is running. Also left out: timer drift, and the interval restarting whenever the phase index changes.
- The transient `0` that the tick's state updater returns before the transition's value lands is not modelled. The transition is immediate.
- The circle's class strings and scale factors (`getCircleStyles`), the inline styles and animations, the progress dots and the rest of the rendering are presentation only.
- Session.BreathingSession.ChangeTechnique: the reset is one atomic step. In the source it runs in an effect after the render that first sees the new technique. That render still reads the old phase index, which fails for a shorter pattern. The app never changes the technique while a session is on screen (App.tsx:181-186), so that case is not modelled.
- The "Terminar" button hands control to the parent through `onFinish`. It does not change the engine state. App.tsx view navigation is not part of this model.
- The request to the language model (client, prompt, schema, JSON parsing) is not modelled. Its reply is a parameter.
- Recommendation.GetBreathingRecommendation: the parsed answer is taken to carry one of the four identifiers. The source parses it with an unchecked cast and relies on the response schema's enumeration.
- Button.tsx is not part of this model.
- Technique names and descriptions are carried as data. Nothing is proved about them.
- Integers are unbounded. The durations and counters involved are far below where JavaScript numbers lose precision.
