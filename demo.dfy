/**
  The demonstration run: a list of packages, each read and reported in
  order. The model keeps the reports the loop would print, as records; an
  error that Python would leave uncaught ends the run.
*/
module Demo {
  import opened Wrappers
  import opened Workouts
  import opened Info
  import opened Dispatch

  /** A workout code with its positional readings. */
  datatype Package = Package(code: string, data: seq<real>)

  /** Which stage stopped a package. */
  datatype ReportError = PackageFailed(e: PackageError) | ArithmeticFailed(a: ArithmeticError)

  /**
    One pass of the loop: read the package, then build its report (what
    `main` prints). An unknown code or a wrong arity stops the first stage, a
    zero divisor the second.
  */
  function Report(p: Package): (r: Result<InfoMessage, ReportError>)
    ensures ReadPackage(p.code, p.data).Failure? ==>
      r == Failure(PackageFailed(ReadPackage(p.code, p.data).error))
    ensures ReadPackage(p.code, p.data).Success? ==>
      if Computable(ReadPackage(p.code, p.data).value)
      then r == Success(ShowTrainingInfo(ReadPackage(p.code, p.data).value).value)
      else r == Failure(ArithmeticFailed(ZeroDivision))
  {
    match ReadPackage(p.code, p.data)
    case Failure(e) => Failure(PackageFailed(e))
    case Success(w) =>
      match ShowTrainingInfo(w)
      case Failure(a) => Failure(ArithmeticFailed(a))
      case Success(m) => Success(m)
  }

  /** What a run produced: the reports, in order, and the error that ended it, if any. */
  datatype Outcome = Outcome(reports: seq<InfoMessage>, error: Option<ReportError>)

  /** A successful report in front of an outcome. */
  function Prepend(m: InfoMessage, o: Outcome): Outcome {
    Outcome([m] + o.reports, o.error)
  }

  /**
    The run over a list of packages: the reports of the packages, one each
    and in input order, up to the first package that fails; that failure
    ends the run.
  */
  function Transcript(ps: seq<Package>): (o: Outcome)
    ensures |o.reports| <= |ps|
    ensures forall i :: 0 <= i < |o.reports| ==> Report(ps[i]) == Success(o.reports[i])
    ensures o.error.None? <==> |o.reports| == |ps|
    ensures o.error.Some? ==> Report(ps[|o.reports|]) == Failure(o.error.value)
  {
    if ps == [] then Outcome([], None)
    else
      match Report(ps[0])
      case Failure(e) => Outcome([], Some(e))
      case Success(m) => Prepend(m, Transcript(ps[1..]))
  }

  /** The demonstration loop, with each printed report collected instead of printed. */
  method RunPackages(ps: seq<Package>) returns (reports: seq<InfoMessage>, error: Option<ReportError>)
    ensures Outcome(reports, error) == Transcript(ps)
  {
    reports, error := [], None;
    var i := 0;
    while i < |ps|
      invariant 0 <= i <= |ps| && |reports| == i
      invariant forall j :: 0 <= j < i ==> Report(ps[j]) == Success(reports[j])
    {
      var r := Report(ps[i]);
      if r.Failure? {
        error := Some(r.error);
        break;
      }
      reports := reports + [r.value];
      i := i + 1;
    }
    TranscriptDetermined(ps, Outcome(reports, error));
  }

  /** An outcome that has the shape the run promises is the run's outcome. */
  lemma TranscriptDetermined(ps: seq<Package>, o: Outcome)
    requires |o.reports| <= |ps|
    requires forall i :: 0 <= i < |o.reports| ==> Report(ps[i]) == Success(o.reports[i])
    requires o.error.None? <==> |o.reports| == |ps|
    requires o.error.Some? ==> Report(ps[|o.reports|]) == Failure(o.error.value)
    ensures Transcript(ps) == o
  {
  }

  /**
    Packages that all report successfully do not affect the packages after
    them: the run over a concatenation is the first part's reports followed
    by the run over the second part.
  */
  lemma TranscriptConcat(ps: seq<Package>, qs: seq<Package>)
    requires Transcript(ps).error.None?
    ensures Transcript(ps + qs)
         == Outcome(Transcript(ps).reports + Transcript(qs).reports, Transcript(qs).error)
  {
    var a, b := Transcript(ps), Transcript(qs);
    var o := Outcome(a.reports + b.reports, b.error);
    forall i | 0 <= i < |o.reports|
      ensures Report((ps + qs)[i]) == Success(o.reports[i])
    {
      if i < |ps| {
        assert (ps + qs)[i] == ps[i];
      } else {
        assert (ps + qs)[i] == qs[i - |ps|];
      }
    }
    if b.error.Some? {
      assert (ps + qs)[|o.reports|] == qs[|b.reports|];
    }
    TranscriptDetermined(ps + qs, o);
  }

  /** The packages of the demonstration list. */
  const DemoPackages: seq<Package> := [
    Package("SWM", [420.0, 4.0, 20.0, 42.0, 4.0]),
    Package("RUN", [15000.0, 1.0, 75.0]),
    Package("WLK", [9000.0, 1.0, 75.0, 180.0])
  ]

  /**
    The demonstration run reports all three packages: 42 m x 4 lengths in
    4 hours at 20 kg; 15000 steps in one hour at 75 kg; 9000 steps in one
    hour at 75 kg and 180 cm.
  */
  lemma DemoTranscript()
    ensures Transcript(DemoPackages) == Outcome([
      InfoMessage("Swimming", 4.0, 0.5796, 0.042, 182.72),
      InfoMessage("Running", 1.0, 9.75, 9.75, 797.805),
      InfoMessage("SportsWalking", 1.0, 5.85, 5.85, 349.251747525)
    ], None)
  {
  }

  /** 40 lengths of a 25 m pool and 720 strokes in one hour at 80 kg: 1 km/h, 336 kcal. */
  lemma SwimmingExample()
    ensures Report(Package("SWM", [720.0, 1.0, 80.0, 25.0, 40.0]))
         == Success(InfoMessage("Swimming", 1.0, 0.9936, 1.0, 336.0))
  {
  }

  /** An unknown code, a missing reading and a zero duration each stop a package. */
  lemma FailingPackages()
    ensures Report(Package("XYZ", [15000.0, 1.0, 75.0])) == Failure(PackageFailed(UnknownWorkoutType("XYZ")))
    ensures Report(Package("WLK", [9000.0, 1.0, 75.0])) == Failure(PackageFailed(WrongArity(4, 3)))
    ensures Report(Package("RUN", [15000.0, 0.0, 75.0])) == Failure(ArithmeticFailed(ZeroDivision))
  {
  }
}
