# Fitness calculator, modelled in Dafny

A model of `homework.py`, a small workout calculator. A workout record is built
once from sensor readings: a step or stroke count, the duration in hours, the
weight in kg, and for some classes a height in cm or pool data. From the record
the calculator computes the distance in km, the mean speed in km/h and the
calories burned. The class is one of the base `Training`, `Running`,
`SportsWalking` and `Swimming`. The dispatcher `read_package` picks the class
from a three-letter code. `show_training_info` packs the results into an
`InfoMessage` record.

Layout:

- `wrappers.dfy` (module `Wrappers`): the `Result` type used for error paths.
- `workouts.dfy` (module `Workouts`): the classes as one datatype `Workout`,
  the class constants, `Distance`, `MeanSpeed`, `SpentCalories`, and lemmas about them.
- `info_message.dfy` (module `Info`): `InfoMessage` and `ShowTrainingInfo`.
- `read_package.dfy` (module `Dispatch`): the code table, positional
  construction and `ReadPackage`.
- `demo.dfy` (module `Demo`): the demonstration loop over a list of packages,
  with the reports collected instead of printed, and concrete runs.

Modelling decisions:

- The source is pure. Fields are set only by the constructors, and every
  `get_*` method is one expression. So each class is a datatype constructor
  and each method is a function. Inherited and overridden constants
  (`LEN_STEP` is 0.65 except for Swimming's 1.38) are looked up per
  constructor by `LenStep`.
- Every reading is a `real`, and arithmetic is exact. The `int` annotations
  on `action` and `count_pool` are not enforced in Python: `read_package`
  passes on whatever the list holds.
- `Running.get_spent_calories` calls `Training.get_mean_speed` explicitly.
  The model mirrors this with `BaseMeanSpeed`. `SportsWalking` calls
  `self.get_mean_speed()`, which resolves to the same base method.
- Division by zero is an error path, not a precondition of the report.
  `MeanSpeed` and `SpentCalories` are partial (`requires` a non-zero
  duration, and a non-zero height for walking). `ShowTrainingInfo` returns
  `Failure(ZeroDivision)` exactly when a divisor is zero, which is when
  Python's `show_training_info` would raise `ZeroDivisionError` if its
  arithmetic were exact (see "Left out" for the float-only cases).
- `read_package` looks the code up in a dictionary. An unknown code raises
  `KeyError`; here it gives `UnknownWorkoutType(code)`. A list of the wrong
  length makes `cls(*data)` raise `TypeError`; here it gives
  `WrongArity(expected, given)`. The code table is a Dafny `map`.
- 15000 running steps in one hour at 75 kg give exactly 797.805 kcal
  (`(18 * 9.75 + 1.79) * 75 / 1000 * 60`); see `Demo.DemoTranscript`.

## Model

| member | source | states |
|---|---|---|
| `Workouts.TypeName` | homework.py:30-121 | the `training_type` class attributes: `Training`, `Running`, `SportsWalking`, `Swimming` |
| `Workouts.TypeNameInjective` | homework.py:30-121 | the four `training_type` labels are pairwise distinct, so the label identifies the class |
| `Workouts.DistanceAdditive` | homework.py:41-44 | distance is additive in the step count: the same length per step for a given class |
| `Workouts.Distance` | homework.py:41-44 | `get_distance`: the distance in km times 1000 is the count times the class's `LEN_STEP`; it is non-negative for a non-negative count |
| `Workouts.LenStep` | homework.py:27-118 | `LEN_STEP` as the record's class sees it: 0.65 inherited from `Training`, 1.38 overridden by `Swimming` (line 118) |
| `Workouts.BaseMeanSpeed` | homework.py:46-49 | `Training.get_mean_speed`: speed times duration is the distance |
| `Workouts.MeanSpeed` | homework.py:46-137 | for every class but Swimming (base method), mean speed times duration is the distance; for Swimming (override), mean speed times duration times 1000 is pool length times pool count |
| `Workouts.SwimmingSpeedIgnoresStrokes` | homework.py:134-137 | swimming mean speed does not depend on the stroke count |
| `Workouts.MeanSpeedNonNegative` | homework.py:46-137 | with non-negative readings and positive duration, mean speed is non-negative |
| `Workouts.LandSpeedGrowsWithSteps` | homework.py:46-49 | more steps in the same time give at least the same mean speed |
| `Workouts.CaloriesDefined` | homework.py:51-143 | `get_spent_calories` divides by the duration (all subclasses) and by the height (walking); the base class divides by nothing |
| `Workouts.SpentCalories` | homework.py:51-143 | `get_spent_calories` dispatched on the class; its properties are the closed-form, proportionality, sign and monotonicity lemmas below |
| `Workouts.WalkingFormula` | homework.py:108-112 | the walking calorie expression for a speed in m/s, a height in metres and a duration in minutes |
| `Workouts.BaseCaloriesZero` | homework.py:51-54 | the base class burns 0 kcal |
| `Workouts.RunningCaloriesClosedForm` | homework.py:72-82 | running calories are (18 x distance + 1.79 x duration) x weight x 60 / 1000, once duration cancels out of the speed |
| `Workouts.WalkingCaloriesClosedForm` | homework.py:101-113 | walking calories are 0.035 x weight x minutes plus 0.029 x weight x 60 x 100 x (0.278 x distance)^2 / (height x duration) |
| `Workouts.SwimmingCaloriesClosedForm` | homework.py:139-143 | swimming calories are (pool km + 1.1 x duration) x 2 x weight |
| `Workouts.SwimmingCaloriesIgnoreStrokes` | homework.py:134-143 | swimming calories do not depend on the stroke count |
| `Workouts.CaloriesProportionalToWeight` | homework.py:51-143 | for every class, scaling the weight by k scales the calories by k |
| `Workouts.CaloriesNonNegative` | homework.py:51-143 | with non-negative readings and positive divisors, calories are non-negative |
| `Workouts.CaloriesGrowWithSteps` | homework.py:72-113 | running and walking: more steps in the same time burn at least as many calories |
| `Workouts.WalkingFormulaMonotone` | homework.py:108-112 | the walking formula grows with the speed for non-negative speed and weight |
| `Workouts.WalkingFormulaProportional` | homework.py:108-112 | the walking formula is proportional to the weight |
| `Info.Computable` | homework.py:56-63 | the report needs a non-zero duration for the speed, plus whatever the calories divide by |
| `Info.ShowTrainingInfo` | homework.py:56-63 | fails exactly when a divisor is zero; otherwise the record holds the class label, the stored duration, and the distance, speed and calories |
| `Info.ReportIdentifiesClass` | homework.py:56-63 | two reports carry the same label if and only if they come from the same class |
| `Info.LandReportConsistent` | homework.py:56-63 | for every class but Swimming, reported speed times reported duration is the reported distance |
| `Info.ReportNonNegative` | homework.py:56-63 | with plausible readings the report exists and every quantity in it is non-negative |
| `Dispatch.Arity` | homework.py:32-129 | the constructors take 3 (`Training`, `Running`), 4 (`SportsWalking`) and 5 (`Swimming`) positional parameters |
| `Dispatch.Fields` | homework.py:32-132 | a record's constructor arguments number exactly that class's arity (3, 3, 4 or 5) |
| `Dispatch.Construct` | homework.py:151 | calling a class with positional data succeeds exactly when the count matches; the record then has that class and its fields are the data in order; otherwise it reports the arity mismatch |
| `Dispatch.ConstructFromFields` | homework.py:151 | building a record from its own fields gives the record back |
| `Dispatch.ReadPackage` | homework.py:146-152 | `UnknownWorkoutType` with the code if and only if the code is not `SWM`, `RUN` or `WLK`; success if and only if the code is known and the data has 5, 3 or 4 values; success yields Swimming, Running or SportsWalking, with fields equal to the data in order |
| `Dispatch.RecognisedCodes` | homework.py:148-150 | exactly `SWM`, `RUN` and `WLK` are recognised, and none maps to the base class |
| `Dispatch.CodeOf` | homework.py:148-150 | every dispatchable class has a code that the table maps back to it |
| `Dispatch.ReadPackageRoundTrip` | homework.py:146-152 | every Running, SportsWalking or Swimming record is read back from its code and its fields |
| `Dispatch.ReadPackageInverse` | homework.py:146-152 | a record that was read determines its code and data: it is never the base class, its class's code is the code and its fields are the data |
| `Demo.Report` | homework.py:155-159 | one package read then reported: a package error stops the first stage, a zero divisor the second; otherwise the result is exactly the record `ShowTrainingInfo` builds for the record read |
| `Demo.Transcript` | homework.py:169-171 | the run yields one report per package, in input order, up to the first package that fails; it ends without error exactly when every package reported |
| `Demo.RunPackages` | homework.py:169-171 | the loop over the packages collects exactly the run's reports and its stopping error |
| `Demo.TranscriptDetermined` | homework.py:169-171 | any outcome with those properties is the run's outcome, so they determine the run |
| `Demo.TranscriptConcat` | homework.py:169-171 | packages that all report leave the rest of the run unchanged: the reports of a concatenation are the two parts' reports in order |
| `Demo.DemoTranscript` | homework.py:163-167 | the three demonstration packages report 0.5796 km, 0.042 km/h, 182.72 kcal (swimming); 9.75 km, 9.75 km/h, 797.805 kcal (running); 5.85 km, 5.85 km/h, 349.251747525 kcal (walking) |
| `Demo.SwimmingExample` | homework.py:134-143 | 720 strokes, 1 h, 80 kg, 40 lengths of 25 m give 0.9936 km, 1.0 km/h and 336 kcal |
| `Demo.FailingPackages` | homework.py:146-152 | an unknown code, a short data list and a zero duration each stop a package at the stage they belong to |

## Left out

- `InfoMessage.get_message`: the text rendering uses fixed-point float formatting with three decimals. That is presentation, not logic.
- Printing: `main` prints the rendered report. `Demo.Report` and `Demo.RunPackages` keep the report records; the text and standard output are not modelled.
- Floating-point rounding: every quantity is an exact `real`. The stated equalities hold exactly in the model. In Python they hold only up to rounding.
- Float-only failures: the model succeeds where Python's floats raise. `speed ** 2` (homework.py:110) raises `OverflowError` on overflow. A huge integer `action` raises `OverflowError` when it is converted to float. A subnormal `height` can make `height / 100` zero and raise `ZeroDivisionError` although `height != 0`.
- `Info.ShowTrainingInfo`: fails exactly when a divisor is zero in exact arithmetic, not on the float-only failures above.
- Python's dynamic typing: readings of any type other than numbers are not modelled.
- The class-level constants of `Running` and `SportsWalking` that the methods do not read (homework.py:69-70, 88-91). The methods use local copies with the same values, and those are modelled.
