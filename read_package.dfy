/**
  `read_package`: look the workout code up in a fixed table of classes and
  build a record of that class from the positional readings.
*/
module Dispatch {
  import opened Wrappers
  import opened Workouts

  /** Why a package could not be read. */
  datatype PackageError =
    | UnknownWorkoutType(code: string)          // the table lookup raises KeyError
    | WrongArity(expected: nat, given: nat)     // the constructor call raises TypeError

  /** The table from workout code to class. */
  const WorkoutTypes: map<string, Kind> :=
    map["SWM" := SwimmingKind, "RUN" := RunningKind, "WLK" := SportsWalkingKind]

  /** The number of positional parameters of each class's constructor. */
  function Arity(k: Kind): nat {
    match k
    case TrainingKind => 3
    case RunningKind => 3
    case SportsWalkingKind => 4
    case SwimmingKind => 5
  }

  /** The constructor arguments of a record, in declaration order. */
  function Fields(w: Workout): (s: seq<real>)
    ensures |s| == Arity(KindOf(w))
  {
    match w
    case Training(action, duration, weight) => [action, duration, weight]
    case Running(action, duration, weight) => [action, duration, weight]
    case SportsWalking(action, duration, weight, height) => [action, duration, weight, height]
    case Swimming(action, duration, weight, lengthPool, countPool) =>
      [action, duration, weight, lengthPool, countPool]
  }

  /**
    A class called with positional readings, as in `cls(*data)`: it succeeds
    exactly when the count matches the constructor, and then the record's
    fields are the readings in order.
  */
  function Construct(k: Kind, data: seq<real>): (r: Result<Workout, PackageError>)
    ensures r.Success? <==> |data| == Arity(k)
    ensures r.Success? ==> KindOf(r.value) == k && Fields(r.value) == data
    ensures r.Failure? ==> r.error == WrongArity(Arity(k), |data|)
  {
    if |data| != Arity(k) then
      Failure(WrongArity(Arity(k), |data|))
    else
      match k
      case TrainingKind => Success(Training(data[0], data[1], data[2]))
      case RunningKind => Success(Running(data[0], data[1], data[2]))
      case SportsWalkingKind => Success(SportsWalking(data[0], data[1], data[2], data[3]))
      case SwimmingKind => Success(Swimming(data[0], data[1], data[2], data[3], data[4]))
  }

  /** Building a record from its own fields gives the record back. */
  lemma ConstructFromFields(w: Workout)
    ensures Construct(KindOf(w), Fields(w)) == Success(w)
  {
  }

  /**
    `read_package(workout_type, data)`: an unknown code fails with
    `UnknownWorkoutType`; a known code with the wrong number of readings
    fails with `WrongArity`; otherwise the record has the class the code
    names and its fields are the readings in order.
  */
  function ReadPackage(code: string, data: seq<real>): (r: Result<Workout, PackageError>)
    ensures r.Failure? && r.error.UnknownWorkoutType? <==> !(code == "SWM" || code == "RUN" || code == "WLK")
    ensures r.Failure? && r.error.UnknownWorkoutType? ==> r.error.code == code
    ensures r.Success? <==>
      || (code == "SWM" && |data| == 5)
      || (code == "RUN" && |data| == 3)
      || (code == "WLK" && |data| == 4)
    ensures r.Success? ==>
      && (code == "SWM" ==> r.value.Swimming?)
      && (code == "RUN" ==> r.value.Running?)
      && (code == "WLK" ==> r.value.SportsWalking?)
      && Fields(r.value) == data
  {
    if code !in WorkoutTypes then
      Failure(UnknownWorkoutType(code))
    else
      Construct(WorkoutTypes[code], data)
  }

  /** Exactly the three codes are recognised, and the table never yields the base class. */
  lemma RecognisedCodes(code: string)
    ensures code in WorkoutTypes <==> code == "SWM" || code == "RUN" || code == "WLK"
    ensures code in WorkoutTypes ==> WorkoutTypes[code] != TrainingKind
  {
  }

  /** The code of the class of a record the dispatcher can build. */
  function CodeOf(k: Kind): (code: string)
    requires k != TrainingKind
    ensures code in WorkoutTypes && WorkoutTypes[code] == k
  {
    match k
    case RunningKind => "RUN"
    case SportsWalkingKind => "WLK"
    case SwimmingKind => "SWM"
  }

  /** Every record of a dispatchable class is read back from its code and its fields. */
  lemma ReadPackageRoundTrip(w: Workout)
    requires !w.Training?
    ensures ReadPackage(CodeOf(KindOf(w)), Fields(w)) == Success(w)
  {
    ConstructFromFields(w);
  }

  /** A record returned by `read_package` is determined by the code and the readings, and vice versa. */
  lemma ReadPackageInverse(code: string, data: seq<real>)
    requires ReadPackage(code, data).Success?
    ensures var w := ReadPackage(code, data).value;
      !w.Training? && code == CodeOf(KindOf(w)) && data == Fields(w)
  {
    RecognisedCodes(code);
  }
}
