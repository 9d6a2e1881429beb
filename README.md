# OutRunna plan engine in Dafny

This project models the computational core of OutRunna (`streamlit_app.py`), a running
coach app. From a 5K personal record, a goal race and a race date, the engine builds a
training plan week by week. Every fourth week is a deload week whose first session is a
time trial. When the runner logs a new 5K time, the engine recalibrates the plan's pace
annotations. The Streamlit page around it is not modelled.

The modelled parts:

- **Python built-ins the engine relies on** (`text.dfy`, `rounding.dfy`):
  - `str(n)`, `int(s)` and `f"{i:02d}"`
  - `str.split(':')`, `str.lower()` and `str.upper()` on ASCII
  - `int(x)`, which truncates towards zero
  - `round(x)`, which rounds ties to even, and `round(x, 1)`

  Floats are exact reals.
- **Time text** (`time_text.dfy`):
  - reading `MM:SS`, where two `int`s around one colon are accepted and everything else is the `ValueError` path
  - `format_pace`
  - `format_time_difference`
- **The pace model** (`pace.dfy`):
  - the Riegel predictor `predict_distance_time` / `predict_time`
  - the decayed time-trial band `compute_tt_target_range`
  - the three pace zones of `rpe_to_pace_map`

  A zone is held as a `PaceNote` value: either `Zone(low, high, zoneLabel)` or a fixed `Note(text)`. `Render` prints it as the string the source stores in `context_pace`. The real power `x ** y` is the function parameter `pow`.
- **The workout library and `generate_week`** (`workouts.dfy`).
- **Waves and the full plan** (`plan.dfy`):
  - `generate_wave`
  - `generate_plan`, with dates as whole day numbers
  - the loop that lists time-trial dates next to the plan

  `GenerateWave` and `GeneratePlan` are loops, each proved equal to a specification function (`Wave`, `Plan`). `TimeTrialDates` is a loop proved to return `WaveCount` dates, date `j` being `start + 7*(4j+3)`.
- **Properties of generated plans** (`plan_properties.dfy`).
- **`update_plan_with_new_pr`** (`recalibration.dfy`). It is an in-place update of an `array<Week>`, proved equal to the pure `RefreshPlan` of the old contents.

Two consequences of the code are worth knowing:

- **Plan length.** The plan has `4 * WaveCount(totalWeeks) + 2` weeks, so it can run up to three weeks past the race date. For example, eight weeks to the race give a ten-week plan (`PlanWeekNumbers`, `EightWeeksGiveTenWeekPlan`).
- **Recalibration.** The update looks up each zone by the workout's lower-cased *name* (`norwegian 4x4`, …). Every zone key is a single word, so the lookup never finds a zone and every recalibrated session of a generated plan gets `N/A` (`UpdateOfGeneratedPlan`).

## Model

| member | source | states |
|---|---|---|
| Text.NatToString | streamlit_app.py:20 | `str(n)` is a non-empty digit string denoting `n`, with no leading zero |
| Text.IntToString | streamlit_app.py:20 | `int(str(i)) == i` for every integer; `str(i)` holds only digits and minus signs, so no colon |
| Text.Pad2 | streamlit_app.py:20 | `{:02d}` gives at least two characters, only digits and minus signs, and `int` reads the value back |
| Text.ParseInt | streamlit_app.py:43 | a text `int` accepts is non-empty and holds no colon, and a negative value comes from a leading `-` |
| Text.LeadingZero | streamlit_app.py:20 | a leading `0` does not change the value of a digit string (why `int("05") == 5`) |
| Text.Split | streamlit_app.py:43 | `split` yields at least one part; joining the parts with the separator rebuilds the text; no part holds the separator |
| Text.SplitNoSeparator | streamlit_app.py:43 | a text without the separator splits into itself alone |
| Text.SplitFirst | streamlit_app.py:43 | splitting `a:b`, where `a` has no colon, yields `a` followed by the parts of `b` |
| Text.SplitTwo | streamlit_app.py:43 | `a:b`, with no colon on either side, splits into exactly `[a, b]` |
| Text.Lower | streamlit_app.py:117 | `lower()` keeps the length and puts spaces exactly where the input had them |
| Text.Upper | streamlit_app.py:164 | `upper()` keeps the length |
| Rounding.Trunc | streamlit_app.py:18 | `int(x)` is the integer part of `x`, truncated towards zero, on both signs |
| Rounding.RoundHalfEven | streamlit_app.py:19 | `round(x)` is within one half of `x`, and a tie goes to the even integer |
| Rounding.RoundHalfEvenShift | streamlit_app.py:19 | shifting by an even integer before rounding shifts the result by the same integer |
| Rounding.RoundHalfEvenMonotone | streamlit_app.py:19 | `round` is monotone |
| Rounding.RoundHalfEvenOfInt | streamlit_app.py:19 | `round` leaves integers unchanged |
| Rounding.Round1 | streamlit_app.py:122 | `round(x, 1)` is within 0.05 of `x` |
| Rounding.Round1Monotone | streamlit_app.py:122 | `round(x, 1)` is monotone |
| Rounding.Round1OfTenths | streamlit_app.py:122 | a whole number of tenths rounds to itself |
| Rounding.Max | streamlit_app.py:71 | `max` is at least both arguments and equals one of them |
| TimeText.ParseMinSec | streamlit_app.py:43 | a time with no colon fails to parse (the `ValueError` path) |
| TimeText.ParseMinSecOfParts | streamlit_app.py:43 | reading `a:b`, with no colon in `a` or `b`, gives the two `int`s, or fails when either does not parse |
| TimeText.ParseMinSecShape | streamlit_app.py:43 | a time that parses has exactly one colon, with an integer text on each side |
| TimeText.FormatPace | streamlit_app.py:16-20 | reading back `format_pace(x)` gives its fields: the truncated minutes and the rounded seconds of the fraction |
| TimeText.PaceFieldsRound | streamlit_app.py:17-19 | the two fields together are `x` rounded to the nearest second, within half a second of `x` |
| TimeText.FormatPaceChars | streamlit_app.py:20 | a printed pace holds only digits, minus signs and colons |
| TimeText.ShownSecondsOfPace | streamlit_app.py:16-20 | the seconds a printed pace shows equal `round(60 * x)` |
| TimeText.FormatPaceNonNegative | streamlit_app.py:16-20 | for a non-negative pace, the minutes print unpadded; the seconds field lies in 0..60 and is 60 exactly when the fraction is at least 59.5 s |
| TimeText.FormatPaceWholeMinutes | streamlit_app.py:16-20 | a whole number of minutes prints with `00` seconds |
| TimeText.FormatPaceSixtySeconds | streamlit_app.py:16-20 | `format_pace(4.999)` prints `4:60` |
| TimeText.FormatPaceHasColon | streamlit_app.py:16-20 | a printed pace is never `Invalid Time` or `Invalid PR` |
| TimeText.TwentyFiveMinutes | streamlit_app.py:16-20 | `25:00` parses as (25, 0), and 25 minutes print as `25:00` |
| TimeText.FormatTimeDifference | streamlit_app.py:79-85 | reading the printed difference back returns `n` |
| TimeText.FormatTimeDifferenceFields | streamlit_app.py:79-85 | the sign is `-` exactly for negative inputs; the fields are abs(n) // 60 and abs(n) % 60, each padded to at least two digits |
| Pace.PredictDistanceTime | streamlit_app.py:30-47 | the prediction fails exactly when the time does not parse as `MM:SS` |
| Pace.PredictionNonNegative | streamlit_app.py:43-45 | a non-negative time and a non-negative power give a non-negative prediction |
| Pace.PredictSameDistance | streamlit_app.py:30-47 | predicting for the distance the time was run at returns that time in minutes |
| Pace.PredictTime | streamlit_app.py:49-55 | the result is `Invalid Time` exactly when the time does not parse |
| Pace.PredictTimeSameDistance | streamlit_app.py:49-55 | for the same distance, the printed prediction is the input time printed by `format_pace` |
| Pace.PredictTimeExample | streamlit_app.py:49-55 | `predict_time("25:00", 3.1, 3.1)` is `25:00` |
| Pace.PredictTimeNoColon | streamlit_app.py:49-55 | a time without a colon gives `Invalid Time` |
| Pace.DecayFactor | streamlit_app.py:71 | the factor is non-negative, at least `1 - rate * wave`, at most 1 for a non-negative decay, and either 0 or `1 - rate * wave` |
| Pace.DefaultDecay | streamlit_app.py:57-71 | with the default 1.5% rate the factor is `1 - 0.015 * wave` and positive up to wave 66, and 0 from wave 67 on |
| Pace.DecayFactorNonIncreasing | streamlit_app.py:71 | with a non-negative rate, a later wave never gets a larger factor |
| Pace.TtTarget | streamlit_app.py:67-72 | the decayed target is missing exactly when the PR does not parse |
| Pace.TtTargetNonNegative | streamlit_app.py:67-72 | with a non-negative PR and power, the target is non-negative |
| Pace.ComputeTtTargetRange | streamlit_app.py:57-77 | the result is (`Invalid PR`, `Invalid PR`) exactly when the PR does not parse |
| Pace.TargetRangeOfTarget | streamlit_app.py:73-75 | the band is the target shrunk and widened by the buffer, each printed by `format_pace` |
| Pace.BufferBand | streamlit_app.py:73-75 | low <= target <= high, and so in the whole seconds printed as well |
| Pace.RpeToPaceMap | streamlit_app.py:22-28 | the zones are exactly `interval`, `tempo` and `long` |
| Pace.PaceZonesOrdered | streamlit_app.py:22-28 | in printed seconds, the six bounds of the zones `rpe_to_pace_map` returns never decrease from the fast end of the interval zone to the slow end of the long zone |
| Pace.PaceRange | streamlit_app.py:25-27 | the text before the first en dash is the low bound as `format_pace` prints it, and reads back as that pace in whole seconds; when the label has no en dash, the text splits at en dashes into exactly the printed low bound and the printed high bound followed by ` min/mile (label)` |
| Pace.Render | streamlit_app.py:25-27 | a zone's string starts with its low bound, readable back in whole seconds, and for a label without an en dash splits into exactly the low bound and the high bound with unit and label; a fixed text prints as itself |
| Workouts.DayLabels | streamlit_app.py:104 | the day labels read `Day 1`, `Day 2`, `Day 3` |
| Workouts.WeekLayout | streamlit_app.py:87-111 | a week is the Norwegian 4x4 (40 min, RPE 9, `4 min hard, 2 min rest x 4`) on day 1, the tempo run (40 min, RPE 7, `20 min warm up, 20 min tempo, 5 min cool down`) on day 2 and the long run (75 min, RPE 4, `Easy pace, conversational`) on day 3 |
| Workouts.WeekOf | streamlit_app.py:98-111 | a week has three sessions, and each session's pace is its workout type's zone |
| Workouts.ScheduleWeek | streamlit_app.py:99-110 | the loop appends, in order, one library session per key |
| Workouts.GenerateWeek | streamlit_app.py:95-111 | the week is the library week over the zones of the runner's 5K pace, whatever the week number |
| PlanBuilder.TtName | streamlit_app.py:117-118 | the time trial is `2 mile TT` exactly for a 5K goal (in any case), `3.1 mile TT` otherwise |
| PlanBuilder.TtSession | streamlit_app.py:127-128 | the time trial keeps the day of the session it replaces (`Day 1`), is the 2-mile trial exactly for a 5K goal and the 3.1-mile trial otherwise, lasts 20 minutes at RPE 9, is paced `All-out` and described `Time trial – log result` |
| PlanBuilder.FiveKRaceName | streamlit_app.py:164-165 | the race name's test `goal.upper() == "5K"` holds exactly when the duration's test `goal.lower() == "5k"` does |
| PlanBuilder.Wave | streamlit_app.py:119-134 | a wave is four weeks numbered on from its start week |
| PlanBuilder.GenerateWave | streamlit_app.py:114-134 | the loop builds exactly the four weeks of `Wave` |
| PlanBuilder.WaveShape | streamlit_app.py:114-134 | a wave has four weeks numbered from its start week; only the last is labelled `Deload Week`, and its first session is replaced by the time trial while the rest stay as generated |
| PlanBuilder.WaveMinutes | streamlit_app.py:122 | the wave's minutes are `round(b,1)`, `round(1.08b,1)`, `round(1.16b,1)` and `round(0.7b,1)` |
| PlanBuilder.WaveVolumes | streamlit_app.py:122 | with a non-negative base, the deload week is the lightest and volume grows over the first three weeks |
| PlanBuilder.TotalWeeks | streamlit_app.py:141 | `days // 7` is the number of whole weeks in the span |
| PlanBuilder.WaveCount | streamlit_app.py:149-154 | the number of loop rounds: zero exactly when fewer than three weeks remain; the loop condition holds before the last round and fails after it |
| PlanBuilder.WaveCountExact | streamlit_app.py:149-154 | the loop stops after exactly `WaveCount` rounds |
| PlanBuilder.Peak | streamlit_app.py:147-153 | the running peak is never below the initial base |
| PlanBuilder.Waves | streamlit_app.py:149-154 | `n` chained waves are `4n` weeks |
| PlanBuilder.TaperWeek | streamlit_app.py:156-158 | with a non-negative peak, the taper week is no heavier than the peak, rounded alike |
| PlanBuilder.RaceSessions | streamlit_app.py:161-167 | two sessions: the strides (day 1, `6x400m Strides`, 20 min, RPE 7, paced `10K pace`, `Sharpen up`) and the race (day 3, the goal upper-cased plus ` Race`, RPE 9, paced `All-out`, `Race day!`), which lasts 25 minutes exactly for a 5K goal and 60 otherwise |
| PlanBuilder.RaceWeek | streamlit_app.py:168 | with a non-negative peak, the race week is no heavier than the taper week |
| PlanBuilder.Plan | streamlit_app.py:141-169 | no plan exactly when the race is less than a week away; otherwise four weeks per wave plus the taper and race weeks |
| PlanBuilder.GeneratePlan | streamlit_app.py:137-169 | the loop, taper week and race week build exactly `Plan`, and `None` when the race is less than a week away |
| PlanBuilder.TimeTrialDates | streamlit_app.py:249-253 | one date per wave, the date of wave `j` being `4j + 3` weeks after the start |
| PlanProperties.WavesNumbers | streamlit_app.py:147-154 | `n` chained waves are `4n` weeks numbered from 1 |
| PlanProperties.WavesLabels | streamlit_app.py:124-131 | in chained waves, exactly the weeks with index `i % 4 == 3` are deload weeks |
| PlanProperties.WavesMinutes | streamlit_app.py:150-152 | week `i` has the offset `i % 4` minutes of wave `i / 4`, and each wave starts from the third-week minutes of the one before |
| PlanProperties.WavesSessions | streamlit_app.py:123-131 | week `i` holds the generated week, with the time trial in place of session 1 in deload weeks |
| PlanProperties.PeakIsLargestBase | streamlit_app.py:153 | the peak is at least every base handed on so far and equals one of them |
| PlanProperties.HandOnGrows | streamlit_app.py:122 | from a base of at least 0.3125 min, the third-week minutes are at least the base |
| PlanProperties.PeakIsLastBase | streamlit_app.py:152-153 | with such a base, the bases never shrink and the peak is the last one |
| PlanProperties.PlanWeekNumbers | streamlit_app.py:137-169 | the plan has `4n + 2` weeks numbered 1, 2, … in order, between the whole weeks to the race and three more |
| PlanProperties.EightWeeksGiveTenWeekPlan | streamlit_app.py:141-168 | eight weeks to the race give ten plan weeks, with taper in week 9 and race in week 10 |
| PlanProperties.PlanLabels | streamlit_app.py:155-168 | the last two weeks are the taper and the race week; before them, exactly every fourth week is a deload week and no other week has a label |
| PlanProperties.PlanEnds | streamlit_app.py:155-168 | taper = generated week at `round(0.7 * peak, 1)`; race = `round(0.5 * peak, 1)` with strides (day 1, 20 min, RPE 7) and the race (day 3, 25 min for a 5K, else 60, RPE 9), the race sessions being exactly `RaceSessions` of the goal |
| PlanProperties.PlanDeloadSessions | streamlit_app.py:126-131 | in the waves, each deload week swaps only its first session for the time trial, and every other week is the generated week |
| PlanProperties.PlanSessionsFromPool | streamlit_app.py:124-166 | every session of a plan is a generated-week session, the goal's time trial or a race-week session |
| PlanProperties.DeloadCountAppend | streamlit_app.py:151 | deload weeks of concatenated lists add up |
| PlanProperties.WavesDeloadCount | streamlit_app.py:114-134 | each wave holds exactly one deload week |
| PlanProperties.PlanDeloadCount | streamlit_app.py:137-169 | a plan holds one deload week per wave |
| PlanProperties.DeloadWeeksMatchTimeTrials | streamlit_app.py:249-253 | the listed time-trial dates correspond one to one with the plan's deload weeks; date `j` is the first day of the `j`-th deload week |
| Recalibration.NewBasePace | streamlit_app.py:185-186 | the new base pace times 3.1 miles is the PR's total time |
| Recalibration.RefreshSession | streamlit_app.py:196-199 | the time trial is left alone; any other session keeps every field except its pace, which becomes the zone of its lower-cased name, or `N/A` |
| Recalibration.RefreshWeek | streamlit_app.py:194-199 | a week keeps its number, minutes and label, and each session is refreshed |
| Recalibration.RefreshPlan | streamlit_app.py:194-199 | every week is refreshed and the length is unchanged |
| Recalibration.UpdatePlanWithNewPr | streamlit_app.py:171-200 | an unparsable PR leaves the plan untouched; otherwise the plan array becomes `RefreshPlan` of its old contents with the zones of the new base pace; the same array is returned |
| Recalibration.LastUpdateWins | streamlit_app.py:194-199 | updating twice is updating once with the later zones |
| Recalibration.NamedWorkoutGetsNA | streamlit_app.py:199 | a non-trial workout whose name holds a space gets `N/A` |
| Recalibration.WeekNamesHaveSpaces | streamlit_app.py:87-91 | every library workout name holds a space |
| Recalibration.SpecialNamesHaveSpaces | streamlit_app.py:127-164 | the time-trial, strides and race names hold a space |
| Recalibration.PlanNamesHaveSpaces | streamlit_app.py:137-169 | every workout name in a generated plan holds a space |
| Recalibration.UpdateOfGeneratedPlan | streamlit_app.py:171-200 | on a generated plan, the update sets every non-trial session's pace to `N/A` and leaves the time trials as they were |

## Left out

- The Streamlit page is not modelled: forms, session state, `st.error` messages and the table rendering. An error shows up in the model only as the `None` result or the unchanged plan.
- `datetime.strptime` and calendar arithmetic are not modelled. Dates are whole day numbers, and `timedelta(weeks=k)` is `7 * k` days.
- The real power `(d2 / d1) ** exponent` is the parameter `pow`. Lemmas that need `1 ** e == 1` or a non-negative power take that as a hypothesis. So the scenario of a 12:00 two-mile trial predicting a 5K faster than 25:00, which needs numeric powers, is not stated.
- Floats are exact reals, so binary floating-point artefacts are not captured, e.g. in `round(x, 1)` at ties or in `0.3 - 0.15`.
- Text.Lower, Text.Upper: map ASCII letters only. Python's `lower()` and `upper()` also map non-ASCII letters, and can change a string's length.
- `int(s)` accepts an optional sign and ASCII digits only. Python also accepts surrounding whitespace, underscores and non-ASCII digits.
- Pace.PredictDistanceTime: requires a non-zero first distance once the time parses, because the source raises an uncaught `ZeroDivisionError` there (`Pace.PredictTime` requires the same). A negative distance ratio, for which Python's `**` returns a complex number, is passed to `pow` like any other.
- `PlanBuilder.GenerateWave` fixes `progression_rate` and `deload_factor` at their defaults, 0.08 and 0.7. These are the only values any caller passes.
- `generate_week` receives a profile with a `weekly_duration_minutes` that it never reads. The model passes only the goal and the base pace.
- Pace strings: `context_pace` is held as a `PaceNote`. `Render` gives the string the source stores, and the update replaces one `PaceNote` by another.
- In-place mutation: the update's mutation of session dictionaries inside shared week dictionaries is modelled as replacing each week value in the plan array. Aliasing between the dictionaries is not captured.
- The update's `'sessions' in week` guard is not modelled. Every week the engine builds has sessions.
- The rest of the app is not part of this model: time-trial target caching, the new-5K estimate and its printed difference, and the table views.
