# Wellness recommendation scoring, modelled in Dafny

`logic.py` defines `generate_recommendation`, which turns a user's step count
and heart rate into a score and one of two advice messages. It is the only
decision logic in the repository's code, although the web endpoint in
`main.py` does not call it (the endpoint runs `prediction.py` and returns what
that script leaves in a local database). The function works as follows:

- the base score is the step count divided by 1000 (true division);
- a heart rate below 60 adds 2, one from 60 up to but not including 80 adds 1,
  and 80 or above adds nothing (an `if`/`elif`, so the bands are disjoint);
- a score strictly above 8 selects "You are doing great, keep your routine.",
  any other score "Try adding a 20-minute walk and earlier bedtime.";
- the result is a record of exactly the score and the message; the user
  identifier is accepted and ignored.

`logic.dfy` (module `Logic`) models this as pure functions over exact
numbers: `steps` is an `int`, the heart rate and the score are `real`. The
record is the datatype `Recommendation(score, recommendation)` and the messages
are the two literal strings. As in the code, nothing is required of the
inputs: negative step counts and any heart rate have a result. Non-negative
steps and a positive heart rate are what a caller would be expected to pass,
but nothing enforces them, and the model does not assume them.

## Model

| member | source | states |
|---|---|---|
| `Logic.BaseScore` | logic.py:4 | the base score times 1000 is exactly the step count (true division, not floor division) |
| `Logic.HeartRateBonus` | logic.py:5-8 | the bonus is 2 exactly when the heart rate is below 60, 1 exactly when it is in [60, 80), 0 exactly when it is 80 or more; so the bands are disjoint and a low heart rate never gets 3 |
| `Logic.ChooseMessage` | logic.py:10-14 | the encouraging message exactly when the score is strictly above 8, the walking message exactly when it is 8 or less |
| `Logic.GenerateRecommendation` | logic.py:2-16 | the score is steps/1000 plus 2, 1 or 0 according to the heart-rate band; it lies between steps/1000 and steps/1000 + 2; the message is the encouraging one if and only if the score is above 8, and the walking one if and only if it is not |
| `Logic.MinStepsForGreat` | logic.py:4-14 | the cutoff is 6001 steps below heart rate 60, 7001 from 60 up to 80, 8001 from 80 on, and at each heart rate the encouraging message is given exactly to the step counts at or above it, for any user |
| `Logic.StepCutoff` | logic.py:4-14 | for every heart rate there is a step count from which on, and only from which on, the encouraging message is given, for any user |
| `Logic.BandEdges` | logic.py:5-8 | 59.999 gets +2, 60 gets +1 (not +2), 79.999 gets +1, 80 gets +0 (not +1) |
| `Logic.StepsMonotone` | logic.py:4-14 | with the heart rate fixed, more steps never lower the score, and the encouraging message is kept as the steps grow |
| `Logic.HeartRateAntitone` | logic.py:5-14 | with the steps fixed, a higher heart rate never raises the score, and a heart rate that misses the encouraging message misses it at every higher rate |
| `Logic.UserIdIrrelevant` | logic.py:2-16 | two calls that differ only in the user identifier return the same record |
| `Logic.ScoreEightIsNotGreat` | logic.py:10-14 | 7000 steps at heart rate 70 score exactly 8 and get the walking message: the threshold is strict |
| `Logic.WorkedExamples` | logic.py:2-16 | 9000 steps at 55 score 11 (encouraging); 1000 at 90 score 1, 6000 at 70 score 7 (walking); 8001 at 70 score 9.001 (encouraging) |

## Left out

- Floating-point arithmetic: the code computes the score in IEEE-754 doubles; the model uses exact reals, so rounding in `steps / 1000` and in the additions, a NaN heart rate (which fails both comparisons and so gets no bonus), and the `OverflowError` that Python raises for `steps / 1000` when the quotient exceeds the largest double (step counts of magnitude above about 1.8·10^311) are not modelled; the model gives a result for every integer.
- An extended result with sauna temperature, suggested duration, intensity, a timestamp and echoed inputs: no code shown here computes it from steps and heart rate (main.py returns a temperature, humidity and duration that come from `prediction.py`, which is not part of this model), so it is not modelled.
- main.py as a whole, because it is I/O around external systems: the web application and its permissive cross-origin setup (main.py:26-34), the environment-variable check that aborts startup (main.py:17-23), running the external `prediction.py` script (main.py:76-95, whose source is not part of this model), reading the latest row of the local SQLite file (main.py:45-62), the insert into the remote store (main.py:114), and the mapping of each of these failures to an HTTP 500 (main.py:86-116).
