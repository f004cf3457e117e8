/** The composition done by the `/stress` and `/intervention` routes
    (app.py): compute the score, then choose an intervention for it. */
module StressEndpoint {
  import opened StressScore
  import opened Intervention
  import opened Rounding

  /** The pair of values both routes return. */
  datatype StressResponse = StressResponse(stressScore: real, intervention: string)

  /** Score the inputs and pick the message, with the random draw as `pick`. */
  function AssessStress(mood: int, screenTime: real, typingSpeed: int, pick: nat): (resp: StressResponse)
    requires pick < 3
    ensures resp.stressScore == CalculateStressScore(mood, screenTime, typingSpeed)
    ensures resp.intervention in Messages(BandOf(resp.stressScore))
  {
    var score := CalculateStressScore(mood, screenTime, typingSpeed);
    StressResponse(score, ChooseIntervention(score, pick))
  }

  /** The bands of the worked values: the example request of the `/stress`
      route lands in Light, the calmest inputs in Calm, the most stressed in
      High. */
  lemma WorkedBands(pick: nat)
    requires pick < 3
    ensures AssessStress(50, 1.5, 80, pick).intervention in LightMessages
    ensures AssessStress(100, 0.0, 100, pick).intervention in CalmMessages
    ensures AssessStress(0, 10.0, 0, pick).intervention in HighMessages
  {
    WorkedValues();
  }

  /** Rounding decides the band near a cut point: (53, 2.165, 100) has the
      exact weighted sum 29.995, a tie that rounds to the even hundredth
      30.00, so the response carries a Light message. */
  lemma TieAtCutPoint(pick: nat)
    requires pick < 3
    ensures RawScore(53, 2.165, 100) == 29.995
    ensures AssessStress(53, 2.165, 100, pick).stressScore == 30.0
    ensures AssessStress(53, 2.165, 100, pick).intervention in LightMessages
  {
    assert RawScore(53, 2.165, 100) * 100.0 == 2999.5;
    RoundHalfEvenUnique(2999.5, 3000);
  }
}
