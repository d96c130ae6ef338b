/**
 * The outcome of asking the language model for a technique. The call itself is
 * outside the model; what remains is the guarantee the caller relies on: some
 * technique of the table always comes back, box breathing when the call fails.
 */
module Recommendation {
  import opened Types
  import opened Constants

  datatype Option<T> = None | Some(value: T)

  /** The suggested technique and the short explanation shown with it. */
  datatype AIRecommendation = AIRecommendation(techniqueId: TechniqueId, reasoning: string)

  const FallbackReasoning: string :=
    "Parece que hubo un problema de conexión, pero la respiración cuadrada es excelente para centrarte y calmarte en cualquier situación."

  /**
   * The recommendation returned to the app. `reply` is the parsed answer of the
   * model, or None when the request failed, the answer had no text or the text
   * did not parse.
   */
  function GetBreathingRecommendation(reply: Option<AIRecommendation>): (r: AIRecommendation)
    ensures reply.Some? ==> r == reply.value
    ensures reply.None? ==> r.techniqueId == BoxBreathing && r.reasoning == FallbackReasoning
  {
    match reply
    case Some(answer) => answer
    case None => AIRecommendation(BoxBreathing, FallbackReasoning)
  }

  /**
   * Records the app's lookup of the recommended technique in the table: whatever
   * the model answers, that lookup yields a technique that can drive a session.
   * It follows directly from the contract of Techniques.
   */
  lemma RecommendationIsRunnable(reply: Option<AIRecommendation>)
    ensures var t := Techniques(GetBreathingRecommendation(reply).techniqueId);
      ValidPattern(t.pattern) && t.id == GetBreathingRecommendation(reply).techniqueId
  {
  }
}
