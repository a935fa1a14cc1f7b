/** How a primitive effect can go wrong. Programs that are verified against a schedule
    of faults are verified for every way of being interrupted. */
module Faults {

  /** An effect is undisturbed, or it is reported as failed, or the process dies; the
      last two either before or after the effect took place. */
  datatype Fault = Clean | ErrorBefore | ErrorAfter | CrashBefore | CrashAfter

  datatype Outcome = Done | Error | Crash

  predicate TakesEffect(f: Fault) {
    f.Clean? || f.ErrorAfter? || f.CrashAfter?
  }

  function Report(f: Fault): Outcome {
    match f
    case Clean => Done
    case ErrorBefore => Error
    case ErrorAfter => Error
    case CrashBefore => Crash
    case CrashAfter => Crash
  }

  /** What is reported done took effect, and an error or a death tells nothing about that. */
  lemma ReportsTellLittle(f: Fault)
    ensures Report(f) == Done ==> TakesEffect(f)
    ensures exists g :: Report(g) == Error && TakesEffect(g)
    ensures exists g :: Report(g) == Error && !TakesEffect(g)
    ensures exists g :: Report(g) == Crash && TakesEffect(g)
    ensures exists g :: Report(g) == Crash && !TakesEffect(g)
  {
    assert Report(ErrorAfter) == Error && TakesEffect(ErrorAfter);
    assert Report(ErrorBefore) == Error && !TakesEffect(ErrorBefore);
    assert Report(CrashAfter) == Crash && TakesEffect(CrashAfter);
    assert Report(CrashBefore) == Crash && !TakesEffect(CrashBefore);
  }

  /** The fault of the next effect; a schedule that has run out disturbs nothing. */
  function NextFault(faults: seq<Fault>): Fault {
    if faults == [] then Clean else faults[0]
  }

  function LaterFaults(faults: seq<Fault>): seq<Fault> {
    if faults == [] then [] else faults[1..]
  }
}
