/** The fixed table of breathing techniques and the preset emotion buttons. */
module Constants {
  import opened Types
  import Engine

  const Relax478Pattern: seq<BreathingPhase> := [
    BreathingPhase(Inhale, 4, "Inhala por la nariz"),
    BreathingPhase(Hold, 7, "Mantén el aire"),
    BreathingPhase(Exhale, 8, "Exhala por la boca")
  ]

  const BoxPattern: seq<BreathingPhase> := [
    BreathingPhase(Inhale, 4, "Inhala"),
    BreathingPhase(Hold, 4, "Mantén"),
    BreathingPhase(Exhale, 4, "Exhala"),
    BreathingPhase(HoldEmpty, 4, "Espera vacío")
  ]

  const DiaphragmaticPattern: seq<BreathingPhase> := [
    BreathingPhase(Inhale, 5, "Inhala profundo (infla abdomen)"),
    BreathingPhase(Exhale, 5, "Exhala lento")
  ]

  const SlowPacedPattern: seq<BreathingPhase> := [
    BreathingPhase(Inhale, 6, "Inhala suavemente"),
    BreathingPhase(Exhale, 6, "Exhala suavemente")
  ]

  // The descriptions shown on the recommendation screen.
  const Relax478Description: string := "Ideal para la ansiedad severa y ataques de pánico. Actúa como un tranquilizante natural para el sistema nervioso."
  const BoxDescription: string := "Perfecta para recuperar la concentración y calmar los nervios. Utilizada por profesionales en situaciones de alto estrés."
  const DiaphragmaticDescription: string := "Ayuda a reducir el cortisol y bajar el ritmo cardíaco. Enfócate en inflar tu abdomen, no tu pecho."
  const SlowPacedDescription: string := "Equilibra tu sistema nervioso cuando te sientes alterado pero no en pánico."

  /** The technique table, keyed by identifier; every entry can be handed to the engine. */
  function Techniques(id: TechniqueId): (t: Technique)
    ensures t.id == id
    ensures ValidPattern(t.pattern)
  {
    match id
    case Relax478 => Technique(Relax478, "Técnica 4-7-8",
      Relax478Description,
      Relax478Pattern)
    case BoxBreathing => Technique(BoxBreathing, "Respiración en Caja",
      BoxDescription,
      BoxPattern)
    case Diaphragmatic => Technique(Diaphragmatic, "Respiración Diafragmática",
      DiaphragmaticDescription,
      DiaphragmaticPattern)
    case SlowPaced => Technique(SlowPaced, "Respiración Lenta Constante",
      SlowPacedDescription,
      SlowPacedPattern)
  }

  /** The preset answers offered on the emotion screen. */
  const EmotionOptions: seq<string> := [
    "Estoy nerviosa",
    "Estoy alterada",
    "Tengo un ataque de pánico",
    "Tengo miedo",
    "Necesito relajarme"
  ]

  /** Every technique begins with an inhale. */
  lemma EveryPatternStartsWithInhale(id: TechniqueId)
    ensures |Techniques(id).pattern| > 0 && Techniques(id).pattern[0].kind == Inhale
  {
  }

  /** One full cycle of each technique lasts 19, 16, 10 and 12 seconds. */
  lemma CycleLengths()
    ensures Engine.CycleLength(Techniques(Relax478).pattern) == 19
    ensures Engine.CycleLength(Techniques(BoxBreathing).pattern) == 16
    ensures Engine.CycleLength(Techniques(Diaphragmatic).pattern) == 10
    ensures Engine.CycleLength(Techniques(SlowPaced).pattern) == 12
  {
  }

  /** Box breathing is four equal sides of 4 seconds: inhale, hold, exhale, hold empty. */
  lemma BoxBreathingIsSquare()
    ensures var p := Techniques(BoxBreathing).pattern;
      |p| == 4 &&
      (forall i :: 0 <= i < |p| ==> p[i].duration == 4) &&
      p[0].kind == Inhale && p[1].kind == Hold && p[2].kind == Exhale && p[3].kind == HoldEmpty
  {
  }

  /** The emotion screen offers exactly five presets, all different. */
  lemma FiveEmotionOptions()
    ensures |EmotionOptions| == 5
    ensures forall i, j :: 0 <= i < j < |EmotionOptions| ==> EmotionOptions[i] != EmotionOptions[j]
  {
  }
}
