/** The stress score of `calculate_stress_score` (app.py).

    The score is a fixed weighted sum of three terms: the mood term
    `100 - mood`, the screen term `10 * screen_time` and the typing term
    `|100 - typing_speed|`, with weights 0.5, 0.3 and 0.2, rounded to two
    decimals. Inputs are not clamped: any mood, screen time and typing speed
    give a score, which may be negative or above 100.
 */
module StressScore {
  import opened Rounding

  function Abs(x: int): (r: nat)
    ensures r == x || r == -x
  {
    if x < 0 then -x else x
  }

  /** The weighted sum before rounding, in exact arithmetic. The typing term
      only adds to the mood and screen terms, and with mood at most 100 and a
      non-negative screen time the sum is non-negative. */
  function RawScore(mood: int, screenTime: real, typingSpeed: int): (r: real)
    ensures r >= 0.5 * (100 - mood) as real + 3.0 * screenTime
    ensures mood <= 100 && screenTime >= 0.0 ==> r >= 0.0
  {
    var moodComponent := (100 - mood) as real;
    var screenComponent := screenTime * 10.0;
    var typingComponent := Abs(100 - typingSpeed) as real;
    0.5 * moodComponent + 0.3 * screenComponent + 0.2 * typingComponent
  }

  /** `calculate_stress_score(mood, screen_time, typing_speed)`. */
  function CalculateStressScore(mood: int, screenTime: real, typingSpeed: int): (score: real)
    ensures HasTwoDecimals(score)
    ensures RawScore(mood, screenTime, typingSpeed) - 0.005 <= score
    ensures score <= RawScore(mood, screenTime, typingSpeed) + 0.005
  {
    Round2(RawScore(mood, screenTime, typingSpeed))
  }

  /** The score in hundredths when the screen time is given in hundredths of
      an hour: with every input a whole number of hundredths the weighted sum
      needs no rounding. */
  function ScoreHundredths(mood: int, screenCentiHours: int, typingSpeed: int): (r: int)
    ensures r as real == 100.0 * RawScore(mood, screenCentiHours as real / 100.0, typingSpeed)
  {
    50 * (100 - mood) + 3 * screenCentiHours + 20 * Abs(100 - typingSpeed)
  }

  /** On a screen time with two decimals, the rounded score and the exact
      integer form agree. */
  lemma CalculateMatchesHundredths(mood: int, screenCentiHours: int, typingSpeed: int)
    ensures CalculateStressScore(mood, screenCentiHours as real / 100.0, typingSpeed)
         == ScoreHundredths(mood, screenCentiHours, typingSpeed) as real / 100.0
  {
    var k := ScoreHundredths(mood, screenCentiHours, typingSpeed);
    assert RawScore(mood, screenCentiHours as real / 100.0, typingSpeed) == k as real / 100.0;
    Round2OfHundredths(k);
  }

  /** A mood of at most 100 and a non-negative screen time give a
      non-negative score. */
  lemma ScoreNonNegative(mood: int, screenTime: real, typingSpeed: int)
    requires mood <= 100 && screenTime >= 0.0
    ensures CalculateStressScore(mood, screenTime, typingSpeed) >= 0.0
  {
    Round2OfHundredths(0);
    Round2Monotone(0.0, RawScore(mood, screenTime, typingSpeed));
  }

  /** The score is not clamped from above: a long enough screen time exceeds
      any bound. */
  lemma NoUpperBound(bound: real)
    ensures exists screenTime: real :: screenTime >= 0.0 && CalculateStressScore(100, screenTime, 100) > bound
  {
    var screenTime := if bound < 0.0 then 0.0 else bound + 1.0;
    assert RawScore(100, screenTime, 100) == 3.0 * screenTime;
    assert CalculateStressScore(100, screenTime, 100) > bound;
  }

  /** The score is not clamped from below either: a mood above 100 gives a
      negative score. */
  lemma MoodAbove100GivesNegative()
    ensures CalculateStressScore(200, 0.0, 100) == -50.0
  {
    assert RawScore(200, 0.0, 100) == -5000 as real / 100.0;
    Round2OfHundredths(-5000);
  }

  /** Raising the mood never raises the score. */
  lemma ScoreAntitoneInMood(mood1: int, mood2: int, screenTime: real, typingSpeed: int)
    requires mood1 <= mood2
    ensures CalculateStressScore(mood2, screenTime, typingSpeed)
         <= CalculateStressScore(mood1, screenTime, typingSpeed)
  {
    Round2Monotone(RawScore(mood2, screenTime, typingSpeed), RawScore(mood1, screenTime, typingSpeed));
  }

  /** Raising the screen time never lowers the score. */
  lemma ScoreMonotoneInScreenTime(mood: int, screen1: real, screen2: real, typingSpeed: int)
    requires screen1 <= screen2
    ensures CalculateStressScore(mood, screen1, typingSpeed)
         <= CalculateStressScore(mood, screen2, typingSpeed)
  {
    Round2Monotone(RawScore(mood, screen1, typingSpeed), RawScore(mood, screen2, typingSpeed));
  }

  /** The typing term is symmetric about 100 words per minute. */
  lemma ScoreSymmetricInTyping(mood: int, screenTime: real, d: int)
    ensures CalculateStressScore(mood, screenTime, 100 + d)
         == CalculateStressScore(mood, screenTime, 100 - d)
  {
    assert RawScore(mood, screenTime, 100 + d) == RawScore(mood, screenTime, 100 - d);
  }

  /** A typing speed of exactly 100 words per minute gives the lowest score. */
  lemma ScoreLeastAtTyping100(mood: int, screenTime: real, typingSpeed: int)
    ensures CalculateStressScore(mood, screenTime, 100)
         <= CalculateStressScore(mood, screenTime, typingSpeed)
  {
    Round2Monotone(RawScore(mood, screenTime, 100), RawScore(mood, screenTime, typingSpeed));
  }

  /** Worked values: the calmest inputs, the most stressed inputs, and the
      example of the `/stress` route. */
  lemma WorkedValues()
    ensures CalculateStressScore(100, 0.0, 100) == 0.0
    ensures CalculateStressScore(0, 10.0, 0) == 100.0
    ensures CalculateStressScore(50, 1.5, 80) == 33.5
  {
    CalculateMatchesHundredths(100, 0, 100);
    CalculateMatchesHundredths(0, 1000, 0);
    CalculateMatchesHundredths(50, 150, 80);
  }
}
