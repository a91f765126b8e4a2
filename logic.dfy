/** The recommendation-scoring function of the wellness service.

    A score is computed from a step count and a heart rate: the steps in
    thousands, plus a bonus from one of three heart-rate bands. The score then
    selects one of two fixed messages by a strict comparison with 8. The
    function reads no state and, for step counts within the range of a
    double, has no error path.

    Numbers are exact: `steps` is an `int` and the score and heart rate are
    `real`, so the division by 1000 and the additions lose nothing. */
module Logic {

  /** The encouraging message, chosen when the score is above the threshold. */
  const GreatMessage: string := "You are doing great, keep your routine."

  /** The conservative message, chosen in every other case. */
  const WalkMessage: string := "Try adding a 20-minute walk and earlier bedtime."

  /** The score a result must exceed, strictly, to get GreatMessage. */
  const Threshold: real := 8.0

  /** The record the function returns: exactly a score and a message. */
  datatype Recommendation = Recommendation(score: real, recommendation: string)

  /** The base score: true division of the step count by 1000 (not floor
      division, so 1500 steps give 1.5 and -500 steps give -0.5). */
  function BaseScore(steps: int): (r: real)
    ensures r * 1000.0 == steps as real
  {
    steps as real / 1000.0
  }

  /** The heart-rate bonus of the if/elif chain: below 60 adds 2, from 60 up
      to but not including 80 adds 1, 80 and above adds nothing. The bands
      are disjoint and cover every heart rate. */
  function HeartRateBonus(heartRate: real): (b: real)
    ensures heartRate < 60.0 <==> b == 2.0
    ensures 60.0 <= heartRate < 80.0 <==> b == 1.0
    ensures 80.0 <= heartRate <==> b == 0.0
  {
    if heartRate < 60.0 then 2.0
    else if heartRate < 80.0 then 1.0
    else 0.0
  }

  /** The message for a score: GreatMessage exactly when the score is
      strictly above the threshold, so a score of exactly 8 gets WalkMessage. */
  function ChooseMessage(score: real): (m: string)
    ensures m == GreatMessage <==> score > Threshold
    ensures m == WalkMessage <==> score <= Threshold
  {
    if score > Threshold then GreatMessage else WalkMessage
  }

  /** generate_recommendation: the score of the step count under its
      heart-rate band, and the message that score selects. The user
      identifier is accepted and not used. */
  function GenerateRecommendation(userId: string, steps: int, heartRate: real): (r: Recommendation)
    ensures heartRate < 60.0 ==> r.score == steps as real / 1000.0 + 2.0
    ensures 60.0 <= heartRate < 80.0 ==> r.score == steps as real / 1000.0 + 1.0
    ensures 80.0 <= heartRate ==> r.score == steps as real / 1000.0
    ensures steps as real / 1000.0 <= r.score <= steps as real / 1000.0 + 2.0
    ensures r.recommendation == GreatMessage <==> r.score > Threshold
    ensures r.recommendation == WalkMessage <==> r.score <= Threshold
  {
    var score := BaseScore(steps) + HeartRateBonus(heartRate);
    Recommendation(score, ChooseMessage(score))
  }

  /** Whether the inputs earn the encouraging message. */
  predicate IsGreat(userId: string, steps: int, heartRate: real)
  {
    GenerateRecommendation(userId, steps, heartRate).recommendation == GreatMessage
  }

  /** `n` is a step cutoff at this heart rate: the encouraging message is given
      exactly to the step counts at or above `n`, whatever the user. */
  ghost predicate IsStepCutoff(heartRate: real, n: int)
  {
    forall userId, steps :: IsGreat(userId, steps, heartRate) <==> steps >= n
  }

  /** The least step count that earns the encouraging message at a heart rate:
      6001 below 60, 7001 from 60 up to 80, 8001 from 80 on. */
  function MinStepsForGreat(heartRate: real): (n: int)
    ensures heartRate < 60.0 ==> n == 6001
    ensures 60.0 <= heartRate < 80.0 ==> n == 7001
    ensures 80.0 <= heartRate ==> n == 8001
    ensures IsStepCutoff(heartRate, n)
  {
    if heartRate < 60.0 then 6001
    else if heartRate < 80.0 then 7001
    else 8001
  }

  /** Every heart rate has a step cutoff, so the step counts that earn the
      encouraging message form an unbroken range upwards from a least one. */
  lemma StepCutoff(heartRate: real)
    ensures exists n: int :: IsStepCutoff(heartRate, n)
  {
    var n := MinStepsForGreat(heartRate);
  }

  /** The band edges are exact: 60 is in the middle band, 80 in the top one. */
  lemma BandEdges()
    ensures HeartRateBonus(59.999) == 2.0 && HeartRateBonus(60.0) == 1.0
    ensures HeartRateBonus(79.999) == 1.0 && HeartRateBonus(80.0) == 0.0
  {
  }

  /** With the heart rate fixed, more steps never lower the score, and a step
      count that earns the encouraging message stays so when it grows. */
  lemma StepsMonotone(userId: string, steps1: int, steps2: int, heartRate: real)
    requires steps1 <= steps2
    ensures GenerateRecommendation(userId, steps1, heartRate).score
         <= GenerateRecommendation(userId, steps2, heartRate).score
    ensures IsGreat(userId, steps1, heartRate) ==> IsGreat(userId, steps2, heartRate)
  {
  }

  /** With the steps fixed, a higher heart rate never raises the score, and a
      heart rate that misses the encouraging message still misses it higher up. */
  lemma HeartRateAntitone(userId: string, steps: int, heartRate1: real, heartRate2: real)
    requires heartRate1 <= heartRate2
    ensures GenerateRecommendation(userId, steps, heartRate2).score
         <= GenerateRecommendation(userId, steps, heartRate1).score
    ensures IsGreat(userId, steps, heartRate2) ==> IsGreat(userId, steps, heartRate1)
  {
  }

  /** The result depends only on the steps and the heart rate. */
  lemma UserIdIrrelevant(userId1: string, userId2: string, steps: int, heartRate: real)
    ensures GenerateRecommendation(userId1, steps, heartRate)
         == GenerateRecommendation(userId2, steps, heartRate)
  {
  }

  /** A score of exactly 8 is reachable and gets the conservative message. */
  lemma ScoreEightIsNotGreat(userId: string)
    ensures GenerateRecommendation(userId, 7000, 70.0) == Recommendation(8.0, WalkMessage)
  {
  }

  /** Worked cases: the eight-score boundary is crossed between 6000 and 8001
      steps at a heart rate of 70. */
  lemma WorkedExamples(userId: string)
    ensures GenerateRecommendation(userId, 9000, 55.0) == Recommendation(11.0, GreatMessage)
    ensures GenerateRecommendation(userId, 1000, 90.0) == Recommendation(1.0, WalkMessage)
    ensures GenerateRecommendation(userId, 6000, 70.0) == Recommendation(7.0, WalkMessage)
    ensures GenerateRecommendation(userId, 8001, 70.0) == Recommendation(9.001, GreatMessage)
  {
  }
}
