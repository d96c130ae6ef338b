/** The value types of the breathing app: phases, techniques and their identifiers. */
module Types {

  /** The four kinds of breathing phase. */
  datatype PhaseType = Inhale | Hold | Exhale | HoldEmpty

  /** One timed segment of a pattern: its kind, its length in whole seconds and the caption shown while it runs (the source's `label`). */
  datatype BreathingPhase = BreathingPhase(kind: PhaseType, duration: int, caption: string)

  /** The four techniques the app knows. */
  datatype TechniqueId = Relax478 | BoxBreathing | Diaphragmatic | SlowPaced

  /** A named technique: an ordered pattern of phases that repeats. */
  datatype Technique = Technique(id: TechniqueId, name: string, description: string, pattern: seq<BreathingPhase>)

  /** What the session engine needs of a pattern: at least one phase, every phase at least one second long. */
  predicate ValidPattern(pattern: seq<BreathingPhase>)
  {
    |pattern| > 0 && forall i :: 0 <= i < |pattern| ==> pattern[i].duration >= 1
  }
}
