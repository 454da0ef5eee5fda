/**
  The workout classes of the fitness calculator: the base class `Training` and
  its subclasses `Running`, `SportsWalking` and `Swimming`. A record is built
  once from its readings and never changed, so each class becomes a
  constructor of one datatype and each `get_*` method a function over it.
  Class constants that a subclass inherits or overrides are looked up per
  constructor.
*/
module Workouts {

  /** The four classes, as values (what the dispatcher's table maps codes to). */
  datatype Kind = TrainingKind | RunningKind | SportsWalkingKind | SwimmingKind

  /**
    One workout record. `action` is the step count (stroke count for
    swimming), `duration` is in hours, `weight` in kg, `height` in cm,
    `lengthPool` in metres and `countPool` the number of pool lengths.
  */
  datatype Workout =
    | Training(action: real, duration: real, weight: real)
    | Running(action: real, duration: real, weight: real)
    | SportsWalking(action: real, duration: real, weight: real, height: real)
    | Swimming(action: real, duration: real, weight: real, lengthPool: real, countPool: real)

  // Constants of the base class, inherited by every subclass.
  const LandStep: real := 0.65        // LEN_STEP, metres per step
  const MetersInKm: real := 1000.0    // M_IN_KM
  const MinutesInHour: real := 60.0   // TIME_M

  // Swimming overrides LEN_STEP with the length of one stroke.
  const SwimStroke: real := 1.38

  // Constants local to Running.get_spent_calories.
  const RunSpeedMultiplier: real := 18.0
  const RunSpeedShift: real := 1.79

  // Constants local to SportsWalking.get_spent_calories.
  const WalkWeightMultiplier: real := 0.035
  const WalkSpeedMultiplier: real := 0.029
  const KmhInMs: real := 0.278
  const CmInM: real := 100.0

  // Constants of Swimming.
  const SwimSpeedShift: real := 1.1
  const SwimWeightMultiplier: real := 2.0

  function KindOf(w: Workout): Kind {
    match w
    case Training(_, _, _) => TrainingKind
    case Running(_, _, _) => RunningKind
    case SportsWalking(_, _, _, _) => SportsWalkingKind
    case Swimming(_, _, _, _, _) => SwimmingKind
  }

  /** The class attribute `training_type`. */
  function TypeName(k: Kind): string {
    match k
    case TrainingKind => "Training"
    case RunningKind => "Running"
    case SportsWalkingKind => "SportsWalking"
    case SwimmingKind => "Swimming"
  }

  /** Distinct classes carry distinct `training_type` labels. */
  lemma TypeNameInjective(k1: Kind, k2: Kind)
    ensures TypeName(k1) == TypeName(k2) <==> k1 == k2
  {
  }

  /** `LEN_STEP` as seen from the record's class. */
  function LenStep(w: Workout): real {
    if w.Swimming? then SwimStroke else LandStep
  }

  /** `Training.get_distance`, inherited by every subclass: kilometres covered. */
  function Distance(w: Workout): (r: real)
    // in metres, the distance is the count times the step length
    ensures r * MetersInKm == w.action * LenStep(w)
    ensures w.action >= 0.0 ==> r >= 0.0
  {
    w.action * LenStep(w) / MetersInKm
  }

  /** `Training.get_mean_speed`: distance over duration, in km/h. */
  function BaseMeanSpeed(w: Workout): (r: real)
    requires w.duration != 0.0
    ensures r * w.duration == Distance(w)
  {
    Distance(w) / w.duration
  }

  /** `get_mean_speed` as dispatched on the record's class; Swimming overrides it. */
  function MeanSpeed(w: Workout): (r: real)
    requires w.duration != 0.0
    // on land, speed times duration gives back the distance
    ensures !w.Swimming? ==> r * w.duration == Distance(w)
    // in the pool, speed times duration is the pool lengths swum, in km
    ensures w.Swimming? ==> r * w.duration * MetersInKm == w.lengthPool * w.countPool
  {
    match w
    case Swimming(_, duration, _, lengthPool, countPool) =>
      lengthPool * countPool / MetersInKm / duration
    case _ => BaseMeanSpeed(w)
  }

  /** When `get_spent_calories` finishes without dividing by zero. */
  predicate CaloriesDefined(w: Workout) {
    match w
    case Training(_, _, _) => true
    case SportsWalking(_, duration, _, height) => duration != 0.0 && height != 0.0
    case _ => w.duration != 0.0
  }

  /**
    The body of `SportsWalking.get_spent_calories`, for a speed `a` in m/s, a
    height `h` in metres and a duration in minutes.
  */
  function WalkingFormula(a: real, h: real, weight: real, minutes: real): real
    requires h != 0.0
  {
    (WalkWeightMultiplier * weight + (a * a / h) * WalkSpeedMultiplier * weight) * minutes
  }

  /** `get_spent_calories` as dispatched on the record's class, in kcal. */
  function SpentCalories(w: Workout): real
    requires CaloriesDefined(w)
  {
    match w
    case Training(_, _, _) => 0.0
    case Running(_, duration, weight) =>
      (RunSpeedMultiplier * BaseMeanSpeed(w) + RunSpeedShift) * weight / MetersInKm
      * (duration * MinutesInHour)
    case SportsWalking(_, duration, weight, height) =>
      WalkingFormula(MeanSpeed(w) * KmhInMs, height / CmInM, weight, duration * MinutesInHour)
    case Swimming(_, duration, weight, _, _) =>
      (MeanSpeed(w) + SwimSpeedShift) * SwimWeightMultiplier * weight * duration
  }

  /** Every reading is non-negative and the divisors are positive. */
  predicate PlausibleReadings(w: Workout) {
    && w.action >= 0.0 && w.duration > 0.0 && w.weight >= 0.0
    && (w.SportsWalking? ==> w.height > 0.0)
    && (w.Swimming? ==> w.lengthPool >= 0.0 && w.countPool >= 0.0)
  }

  /** The same record with another step (or stroke) count. */
  function WithSteps(w: Workout, steps: real): (r: Workout)
    ensures KindOf(r) == KindOf(w) && r.action == steps
  {
    match w
    case Training(_, duration, weight) => Training(steps, duration, weight)
    case Running(_, duration, weight) => Running(steps, duration, weight)
    case SportsWalking(_, duration, weight, height) => SportsWalking(steps, duration, weight, height)
    case Swimming(_, duration, weight, lengthPool, countPool) =>
      Swimming(steps, duration, weight, lengthPool, countPool)
  }

  /** The same record with another weight. */
  function WithWeight(w: Workout, weight: real): (r: Workout)
    ensures KindOf(r) == KindOf(w) && r.weight == weight
  {
    match w
    case Training(action, duration, _) => Training(action, duration, weight)
    case Running(action, duration, _) => Running(action, duration, weight)
    case SportsWalking(action, duration, _, height) => SportsWalking(action, duration, weight, height)
    case Swimming(action, duration, _, lengthPool, countPool) =>
      Swimming(action, duration, weight, lengthPool, countPool)
  }

  // ---------------------------------------------------------------------------
  // Distance

  /** Distance is additive in the step count: it is a fixed length per step. */
  lemma DistanceAdditive(w: Workout, a: real, b: real)
    ensures Distance(WithSteps(w, a + b)) == Distance(WithSteps(w, a)) + Distance(WithSteps(w, b))
  {
  }

  // ---------------------------------------------------------------------------
  // Mean speed

  /** Swimming speed does not depend on the stroke count. */
  lemma SwimmingSpeedIgnoresStrokes(w: Workout, strokes: real)
    requires w.Swimming? && w.duration != 0.0
    ensures MeanSpeed(WithSteps(w, strokes)) == MeanSpeed(w)
  {
  }

  /** With plausible readings no class reports a negative speed. */
  lemma MeanSpeedNonNegative(w: Workout)
    requires PlausibleReadings(w)
    ensures MeanSpeed(w) >= 0.0
  {
  }

  // ---------------------------------------------------------------------------
  // Calories

  /** The base class burns nothing. */
  lemma BaseCaloriesZero(w: Workout)
    requires w.Training?
    ensures SpentCalories(w) == 0.0
  {
  }

  /**
    Running calories with the duration cancelled out of the speed: 18 per km
    of distance and 1.79 per hour, per kg, times 60 / 1000.
  */
  lemma RunningCaloriesClosedForm(w: Workout)
    requires w.Running? && w.duration != 0.0
    ensures SpentCalories(w)
         == (RunSpeedMultiplier * Distance(w) + RunSpeedShift * w.duration)
            * w.weight * MinutesInHour / MetersInKm
  {
  }

  /** Walking calories: a term linear in time, plus one in distance squared over time and height. */
  lemma WalkingCaloriesClosedForm(w: Workout)
    requires w.SportsWalking? && w.duration != 0.0 && w.height != 0.0
    ensures SpentCalories(w)
         == WalkWeightMultiplier * w.weight * w.duration * MinutesInHour
            + WalkSpeedMultiplier * w.weight * MinutesInHour * CmInM
              * (KmhInMs * Distance(w)) * (KmhInMs * Distance(w)) / (w.height * w.duration)
  {
  }

  /** Swimming calories: the pool distance plus 1.1 per hour, twice per kg. */
  lemma SwimmingCaloriesClosedForm(w: Workout)
    requires w.Swimming? && w.duration != 0.0
    ensures SpentCalories(w)
         == (w.lengthPool * w.countPool / MetersInKm + SwimSpeedShift * w.duration)
            * SwimWeightMultiplier * w.weight
  {
  }

  /** Swimming calories do not depend on the stroke count. */
  lemma SwimmingCaloriesIgnoreStrokes(w: Workout, strokes: real)
    requires w.Swimming? && w.duration != 0.0
    ensures SpentCalories(WithSteps(w, strokes)) == SpentCalories(w)
  {
  }

  /** Every calorie formula is proportional to the weight. */
  lemma CaloriesProportionalToWeight(w: Workout, k: real)
    requires CaloriesDefined(w)
    ensures SpentCalories(WithWeight(w, k * w.weight)) == k * SpentCalories(w)
  {
    var v := WithWeight(w, k * w.weight);
    match w
    case Training(_, _, _) =>
    case Running(_, _, _) =>
      assert BaseMeanSpeed(v) == BaseMeanSpeed(w);
    case SportsWalking(_, duration, weight, height) =>
      assert v == SportsWalking(w.action, duration, k * weight, height);
      assert MeanSpeed(v) == MeanSpeed(w);
      assert SpentCalories(v)
          == WalkingFormula(MeanSpeed(w) * KmhInMs, height / CmInM, k * weight, duration * MinutesInHour);
      WalkingFormulaProportional(MeanSpeed(w) * KmhInMs, height / CmInM, weight, duration * MinutesInHour, k);
    case Swimming(_, _, _, _, _) =>
      assert MeanSpeed(v) == MeanSpeed(w);
  }

  /** The walking formula is proportional to the weight. */
  lemma WalkingFormulaProportional(a: real, h: real, weight: real, minutes: real, k: real)
    requires h != 0.0
    ensures WalkingFormula(a, h, k * weight, minutes) == k * WalkingFormula(a, h, weight, minutes)
  {
    var x := a * a / h;
    assert WalkWeightMultiplier * (k * weight) == k * (WalkWeightMultiplier * weight);
    assert x * WalkSpeedMultiplier * (k * weight) == k * (x * WalkSpeedMultiplier * weight);
  }

  /** With plausible readings no class reports negative calories. */
  lemma CaloriesNonNegative(w: Workout)
    requires PlausibleReadings(w)
    ensures SpentCalories(w) >= 0.0
  {
  }

  /** More steps in the same time give at least the same mean speed on land. */
  lemma LandSpeedGrowsWithSteps(w: Workout, more: real)
    requires !w.Swimming? && PlausibleReadings(w) && more >= w.action
    ensures 0.0 <= MeanSpeed(w) <= MeanSpeed(WithSteps(w, more))
  {
  }

  /** More steps in the same time burn at least as many calories, running or walking. */
  lemma CaloriesGrowWithSteps(w: Workout, more: real)
    requires w.Running? || w.SportsWalking?
    requires PlausibleReadings(w) && more >= w.action
    ensures SpentCalories(w) <= SpentCalories(WithSteps(w, more))
  {
    LandSpeedGrowsWithSteps(w, more);
    var v := WithSteps(w, more);
    var s, t := MeanSpeed(w), MeanSpeed(v);
    var minutes := w.duration * MinutesInHour;
    if w.Running? {
      var perSpeed := w.weight / MetersInKm * minutes;
      assert perSpeed >= 0.0;
      MultiplyMonotone(RunSpeedMultiplier * s + RunSpeedShift, RunSpeedMultiplier * t + RunSpeedShift, perSpeed);
    } else {
      var h := w.height / CmInM;
      WalkingFormulaMonotone(s * KmhInMs, t * KmhInMs, h, w.weight, minutes);
    }
  }

  /** The walking formula grows with the speed a, for non-negative speeds and weight. */
  lemma WalkingFormulaMonotone(a: real, b: real, h: real, weight: real, minutes: real)
    requires 0.0 <= a <= b && h > 0.0 && weight >= 0.0 && minutes > 0.0
    ensures WalkingFormula(a, h, weight, minutes) <= WalkingFormula(b, h, weight, minutes)
  {
  }

  /** Helper: multiplying by a non-negative factor keeps the order. */
  lemma MultiplyMonotone(x: real, y: real, c: real)
    requires x <= y && c >= 0.0
    ensures x * c <= y * c
  {
  }

}
