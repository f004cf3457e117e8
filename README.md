# ZenFlow stress score — a Dafny model

ZenFlow is a small HTTP service. It turns three self-reported inputs into a
"stress score", then suggests a short intervention that fits the score. This
project models the service's logic layer in `app.py`:

- `calculate_stress_score` is a weighted sum. The mood term is `100 - mood`,
  the screen term is `10 * screen_time` and the typing term is
  `|100 - typing_speed|`. The weights are 0.5, 0.3 and 0.2, and the sum is
  rounded to two decimals. No input is clamped.
- `choose_intervention` puts the score into one of four bands: Calm below 30,
  Light from 30 up to 60, Medium from 60 up to 80, and High from 80 up. It
  then draws one of that band's three fixed messages at random.

Modules:

- `Rounding` models Python's `round(x, 2)` on exact reals. The result is the
  nearest multiple of 1/100, and an exact tie goes to the even hundredth.
- `StressScore` holds the formula, the rounded score, an exact
  integer-hundredths form, and lemmas about sign, monotonicity, symmetry and
  worked values.
- `Intervention` holds the bands, the message tables and the choice, with
  lemmas about the partition, monotonicity and message membership.
- `StressEndpoint` holds the score-then-message composition that the
  `/stress` and `/intervention` routes both perform.

Arithmetic is exact. `screen_time` is a `real`. The random draw of
`random.choice` is a parameter `pick < 3` supplied by the caller.

## Model

| member | source | states |
|---|---|---|
| `Rounding.RoundHalfEven` | app.py:82 | the result is an integer within one half of the input, and it is even when the input lies exactly halfway between two integers |
| `Rounding.RoundHalfEvenUnique` | app.py:82 | those two properties determine the rounded integer uniquely |
| `Rounding.RoundHalfEvenOfInt` | app.py:82 | an integer rounds to itself |
| `Rounding.RoundHalfEvenMonotone` | app.py:82 | rounding preserves order |
| `Rounding.Round2Hundredths` | app.py:82 | `round(x, 2)` counted in hundredths lies within 0.005 of `x` |
| `Rounding.Round2` | app.py:82 | `round(x, 2)` has two decimals and lies within 0.005 of `x` |
| `Rounding.Round2OfHundredths` | app.py:82 | `round(_, 2)` leaves a value that already has two decimals unchanged |
| `Rounding.Round2Monotone` | app.py:82 | `round(_, 2)` preserves order |
| `StressScore.Abs` | app.py:74 | `abs` returns a non-negative value equal to the argument or to its negation |
| `StressScore.RawScore` | app.py:72-80 | the weighted sum is at least 0.5·(100−mood) + 3·screen_time, because the typing term only adds, and it is non-negative when mood ≤ 100 and screen_time ≥ 0 |
| `StressScore.CalculateStressScore` | app.py:71-82 | the score has two decimals and lies within 0.005 of 0.5·(100−mood) + 0.3·(10·screen_time) + 0.2·abs(100−typing_speed) |
| `StressScore.ScoreHundredths` | app.py:72-80 | 50·(100−mood) + 3·screenCentiHours + 20·abs(100−typing) equals one hundred times the weighted sum when the screen time is screenCentiHours/100 hours |
| `StressScore.CalculateMatchesHundredths` | app.py:71-82 | for a screen time with two decimals, the rounded score equals the integer-hundredths form divided by 100, so no rounding occurs |
| `StressScore.ScoreNonNegative` | app.py:72-82 | a mood of at most 100 and a non-negative screen time give a non-negative score |
| `StressScore.NoUpperBound` | app.py:72-82 | for every bound, some non-negative screen time gives a score above it, so the score is never clamped from above |
| `StressScore.MoodAbove100GivesNegative` | app.py:72 | mood 200 with screen time 0 and typing speed 100 gives −50, so the score is never clamped from below |
| `StressScore.ScoreAntitoneInMood` | app.py:72-82 | raising the mood never raises the score |
| `StressScore.ScoreMonotoneInScreenTime` | app.py:73-82 | raising the screen time never lowers the score |
| `StressScore.ScoreSymmetricInTyping` | app.py:74-82 | typing speeds 100+d and 100−d give the same score |
| `StressScore.ScoreLeastAtTyping100` | app.py:74-82 | a typing speed of 100 gives the lowest score of all typing speeds |
| `StressScore.WorkedValues` | app.py:71-82 | (100, 0, 100) scores 0, (0, 10, 0) scores 100 and (50, 1.5, 80) scores 33.5 |
| `Intervention.Rank` | app.py:90-97 | every band's rank is one of 0 to 3 |
| `Intervention.RankInjective` | app.py:90-97 | two bands with the same rank are the same band, so the rank orders the four bands |
| `Intervention.BandOf` | app.py:90-97 | the band the if/elif chain chooses is one whose half-open interval (below 30, 30 up to 60, 60 up to 80, 80 and up) holds the score |
| `Intervention.BandPartition` | app.py:90-97 | a score lies in a band's half-open interval exactly when the if/elif chain chooses that band |
| `Intervention.ExactlyOneBand` | app.py:90-97 | every score lies in the interval of some band, and of no more than one |
| `Intervention.CountAtOrBelow` | app.py:90-97 | the number of cut points at or below a value never exceeds the number of cut points |
| `Intervention.CountAtOrBelowMonotone` | app.py:90-97 | a larger value has at least as many cut points at or below it |
| `Intervention.BandOfCountsThresholds` | app.py:90-97 | the rank of the chosen band equals the number of cut points 30, 60 and 80 at or below the score, so each cut point belongs to the higher band |
| `Intervention.BandMonotone` | app.py:90-97 | a higher score never gets a less severe band |
| `Intervention.BandBoundaries` | app.py:90-97 | 29.99 is Calm, 30 and 59.99 are Light, 60 and 79.99 are Medium, and 80 is High |
| `Intervention.Messages` | app.py:85-88 | every band has a list of exactly three messages |
| `Intervention.BandOfMessage` | app.py:85-88 | a message found in the tables is in the list of the band returned, and a message not found is in no band's list |
| `Intervention.MessagesDisjoint` | app.py:85-88 | no message belongs to the lists of two different bands |
| `Intervention.MessageIdentifiesBand` | app.py:85-88 | looking a band's message up in the four tables gives back that band |
| `Intervention.ChooseIntervention` | app.py:84-97 | the message is an element of the score's band's list, and looking it up gives back exactly that band, never another |
| `Intervention.EveryBandMessageChosen` | app.py:90-97 | every message in the score's band's list is returned for some draw |
| `StressEndpoint.AssessStress` | app.py:129-140 | the response carries the computed score and a message from that score's band |
| `StressEndpoint.WorkedBands` | app.py:129-140 | the example request (50, 1.5, 80) gets a Light message, (100, 0, 100) a Calm one and (0, 10, 0) a High one |
| `StressEndpoint.TieAtCutPoint` | app.py:82-92 | (53, 2.165, 100) has the exact weighted sum 29.995, which rounds half to even to 30.00 and so gets a Light message |

## Left out

- HTTP routing, CORS, templating, the health-check route, the `/dashboard` route with its fixed chart data, and the `uvicorn` entry point (app.py:17-48, 103-108, 165-174). These are I/O and calls into libraries.
- The `/intervention` route (app.py:144-158) does the same composition as `/stress`, so `StressEndpoint.AssessStress` covers it. Only the JSON key names differ.
- The request model `StressData` (app.py:54-64). Its `0-100` range is written only in a comment and is never enforced, so the model adds no clamping and no validation.
- IEEE-754 binary floats. The model uses exact reals, and `Rounding.RoundHalfEven` breaks ties on the exact real value. Python rounds the binary value of the float instead. So a decimal that looks like a tie but has no exact binary form can round the other way: the model gives 2.68 for `round(2.675, 2)`, and Python gives 2.67. Three float behaviours that can change the band are not modelled:
  - A weighted sum near a tie can round the other way in floats. (53, 2.165, 100) and (50, 1.665, 100) are exactly 29.995 in the model, so they round to 30.00, which is Light (`StressEndpoint.TieAtCutPoint`). In binary64 their sums fall just below 29.995, so Python rounds them to 29.99, which is Calm.
  - A NaN `screen_time` gives a NaN score. NaN fails every comparison at app.py:90, 92 and 94, so app.py:97 returns a High message.
  - An int `mood` or `typing_speed` too large for a float raises `OverflowError` at app.py:77 or app.py:79.
- The uniform distribution of `random.choice`. A deterministic proof cannot state it, so the draw is a caller-supplied index and only membership in the band's list is proved.
- The docstring of the `/stress` route (app.py:117-127) gives 42.35 for the inputs (50, 1.5, 80). The formula gives 33.5, and `StressScore.WorkedValues` proves 33.5. The docstring is out of date; the code is modelled.
- The browser script `script.js`: DOM handling, `fetch`, and its own display categories cut at 25, 50 and 75. These belong to the user interface and are separate from the backend bands.
