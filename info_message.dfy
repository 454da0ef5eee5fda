/**
  The report record `InfoMessage` and `Training.show_training_info`, which
  fills it from a workout. Rendering the record as text is not modelled.
*/
module Info {
  import opened Wrappers
  import opened Workouts

  /** The five values a report carries; built once and never changed. */
  datatype InfoMessage = InfoMessage(
    trainingType: string,
    duration: real,
    distance: real,
    speed: real,
    calories: real)

  /** The one error the computation can raise: a division by zero. */
  datatype ArithmeticError = ZeroDivision

  /** Every division on the way to the report has a non-zero divisor. */
  predicate Computable(w: Workout) {
    w.duration != 0.0 && CaloriesDefined(w)
  }

  /**
    `show_training_info`: the class label, the stored duration, and the
    distance, mean speed and calories of the record, in that order. It fails
    exactly when computing the speed or the calories divides by zero.
  */
  function ShowTrainingInfo(w: Workout): (r: Result<InfoMessage, ArithmeticError>)
    ensures r.Failure? <==> !Computable(w)
    ensures r.Success? ==>
      && r.value.trainingType == TypeName(KindOf(w))
      && r.value.duration == w.duration
      && r.value.distance == Distance(w)
      && r.value.speed == MeanSpeed(w)
      && r.value.calories == SpentCalories(w)
  {
    if Computable(w) then
      Success(InfoMessage(TypeName(KindOf(w)), w.duration, Distance(w), MeanSpeed(w), SpentCalories(w)))
    else
      Failure(ZeroDivision)
  }

  /** The label in a report tells which class produced it. */
  lemma ReportIdentifiesClass(w1: Workout, w2: Workout)
    requires ShowTrainingInfo(w1).Success? && ShowTrainingInfo(w2).Success?
    ensures ShowTrainingInfo(w1).value.trainingType == ShowTrainingInfo(w2).value.trainingType
        <==> KindOf(w1) == KindOf(w2)
  {
    TypeNameInjective(KindOf(w1), KindOf(w2));
  }

  /** For every class but Swimming, the reported speed and duration give back the reported distance. */
  lemma LandReportConsistent(w: Workout)
    requires !w.Swimming? && ShowTrainingInfo(w).Success?
    ensures ShowTrainingInfo(w).value.speed * ShowTrainingInfo(w).value.duration
         == ShowTrainingInfo(w).value.distance
  {
  }

  /** With plausible readings every reported quantity is non-negative. */
  lemma ReportNonNegative(w: Workout)
    requires PlausibleReadings(w)
    ensures ShowTrainingInfo(w).Success?
    ensures var m := ShowTrainingInfo(w).value;
      m.duration > 0.0 && m.distance >= 0.0 && m.speed >= 0.0 && m.calories >= 0.0
  {
    MeanSpeedNonNegative(w);
    CaloriesNonNegative(w);
  }
}
