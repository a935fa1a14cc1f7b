/** Restarting a container exactly once: the durable effect marker and the decision a
    resumed request takes from it, across crashes, errors and retries with the same key. */
module Lifecycle {
  import opened Artifacts
  import opened Faults

  datatype Action = Start | Stop | Restart

  datatype Container = Container(id: nat, startedAt: Option<nat>, running: bool)

  datatype Phase = EffectStarted | EffectCompleted

  datatype Marker = Marker(phase: Phase, preId: Option<nat>, preStartedAt: Option<nat>, postId: Option<nat>)

  // ---------- The decisions ----------

  predicate ObservationMatches(marker: Marker, observed: Option<Container>) {
    match (marker.preId, observed)
    case (None, None) => true
    case (Some(expected), Some(c)) => c.id == expected && c.startedAt == marker.preStartedAt
    case _ => false
  }

  predicate EffectIsComplete(action: Action, marker: Marker, observed: Option<Container>) {
    match (marker.preId, observed)
    case (None, Some(c)) =>
      action == Start && c.running && (marker.postId.None? || marker.postId.value == c.id)
    case (Some(expected), Some(c)) =>
      c.id == expected && c.running == (action != Stop) && (action == Restart ==> c.startedAt != marker.preStartedAt)
    case _ => false
  }

  // ---------- One restart operation and its surroundings ----------

  /** The idempotency record of the operation. */
  datatype Status = NoRecord | InProgress | Interrupted | Succeeded | Rejected

  /** What the surroundings may do between two steps: stop, remove or replace the
      container, but not start it. */
  datatype Outside = Stay | Exit | Remove | Replace

  datatype Step = Step(outside: Outside, fault: Fault)

  const CalmStep := Step(Stay, Clean)

  /** A start effect of this operation: on which container, and when. */
  datatype StartEffect = StartEffect(id: nat, at: nat)

  /** `starts` is history. Identifiers and start times are never reused. `now` counts the
      steps taken; a script that has run out disturbs nothing. */
  datatype Machine = Machine(
    status: Status, marker: Option<Marker>, container: Option<Container>,
    nextId: nat, nextStart: nat, starts: seq<StartEffect>, script: seq<Step>, now: nat)

  datatype Answer = Replayed | Success | Failure | Retry | Died

  function StepAt(script: seq<Step>, i: nat): Step {
    if i < |script| then script[i] else CalmStep
  }

  /** Nothing disturbs the next `k` steps. */
  ghost predicate CalmFor(m: Machine, k: nat) {
    forall i: nat :: m.now <= i < m.now + k ==> StepAt(m.script, i) == CalmStep
  }

  /** One of the steps `from`, ..., `to` finds the container replaced. */
  ghost predicate ReplacedWithin(script: seq<Step>, from: nat, to: nat) {
    exists i: nat :: from <= i <= to && StepAt(script, i).outside == Replace
  }

  /** The container after the surroundings acted. */
  function AfterOutside(m: Machine, what: Outside): Machine {
    match what
    case Stay => m
    case Exit => if m.container.Some? then m.(container := Some(m.container.value.(running := false))) else m
    case Remove => m.(container := None)
    case Replace => m.(container := Some(Container(m.nextId, None, false)), nextId := m.nextId + 1)
  }

  /** Between two steps the container may stay, stop, go or be replaced. */
  lemma SurroundingsCan(m: Machine, what: Outside)
    ensures what == Stay ==> AfterOutside(m, what) == m
    ensures what == Exit && m.container.Some? ==>
              AfterOutside(m, what) == m.(container := Some(Container(m.container.value.id, m.container.value.startedAt, false)))
    ensures what == Remove ==> AfterOutside(m, what) == m.(container := None)
    ensures what == Replace ==>
              var c := AfterOutside(m, what).container;
              c.Some? && !c.value.running && (m.container.Some? && m.container.value.id < m.nextId ==> c.value.id != m.container.value.id)
  {
  }

  /** The next step of the surroundings. */
  function Surrounded(m: Machine): Machine {
    AfterOutside(m, StepAt(m.script, m.now).outside).(now := m.now + 1)
  }

  predicate IsMarked(m: Machine, id: nat) {
    m.marker.Some? && m.marker.value.preId == Some(id)
  }

  /** This operation started the container that its marker names. */
  predicate MarkedStart(m: Machine) {
    |m.starts| == 1 && IsMarked(m, m.starts[0].id)
  }

  /** What holds whenever control is outside a step. There was at most one start, after the
      marker. If it was of the marked container, that container shows it; if it was of
      another one, the marked container is gone. Completion and success are recorded only
      after a start of the marked container. */
  ghost predicate Inv(m: Machine) {
    && |m.starts| <= 1
    && (m.marker.None? ==> m.starts == [])
    && (m.container.Some? ==>
          && m.container.value.id < m.nextId
          && (m.container.value.startedAt.Some? ==> m.container.value.startedAt.value < m.nextStart))
    && (m.marker.Some? ==>
          && m.marker.value.preId.Some? && m.marker.value.preId.value < m.nextId
          && (m.marker.value.phase == EffectCompleted ==> MarkedStart(m))
          && (m.marker.value.preStartedAt.Some? ==> m.marker.value.preStartedAt.value < m.nextStart)
          && (m.container.Some? && m.container.value.id == m.marker.value.preId.value ==>
                && (m.starts != [] ==> MarkedStart(m))
                && m.container.value.startedAt == if m.starts == [] then m.marker.value.preStartedAt else Some(m.starts[0].at)))
    && (m.starts != [] ==> m.starts[0].at < m.nextStart && Some(m.starts[0].at) != m.marker.value.preStartedAt)
    && (m.status == Succeeded ==> MarkedStart(m))
  }

  /** The container is the same one, unchanged except that it may have stopped, or it is
      gone, or it is a new one. */
  ghost predicate Evolves(m0: Machine, m: Machine) {
    && m0.nextId <= m.nextId && m0.nextStart <= m.nextStart && m.starts == m0.starts
    && (m.container.None? || m.container.value.id >= m0.nextId
        || (&& m0.container.Some? && m.container.value.id == m0.container.value.id
            && m.container.value.startedAt == m0.container.value.startedAt
            && (m.container.value.running ==> m0.container.value.running)))
  }

  /** Only the container and the clockwork changed. */
  ghost predicate SameRecord(m0: Machine, m: Machine) {
    m.status == m0.status && m.marker == m0.marker && m.script == m0.script
  }

  /** The marker, once written, names the same container. */
  ghost predicate KeepsMark(m0: Machine, m: Machine) {
    && m.script == m0.script
    && (m0.marker.Some? ==> m.marker.Some? && m.marker.value.preId == m0.marker.value.preId)
  }

  lemma OutsideKeepsInv(m: Machine, what: Outside)
    requires Inv(m)
    ensures Inv(AfterOutside(m, what)) && Evolves(m, AfterOutside(m, what)) && SameRecord(m, AfterOutside(m, what))
  {
  }

  // ---------- Steps ----------

  /** Any step without an effect of its own: a check, a file write, an observation. */
  method Look(m0: Machine) returns (m: Machine, o: Outcome, seen: Option<Container>)
    requires Inv(m0)
    ensures Inv(m) && Evolves(m0, m) && SameRecord(m0, m) && m.now == m0.now + 1
    ensures seen == m.container
    ensures CalmFor(m0, 1) ==> o == Done && m == m0.(now := m.now)
  {
    var step := StepAt(m0.script, m0.now);
    OutsideKeepsInv(m0, step.outside);
    m := Surrounded(m0);
    o, seen := Report(step.fault), m.container;
  }

  /** A transaction on the record. */
  method Write(m0: Machine, status: Status, marker: Option<Marker>) returns (m: Machine, o: Outcome)
    requires Inv(m0) && Inv(m0.(status := status, marker := marker))
    ensures Inv(m) && m == m0.(status := m.status, marker := m.marker, now := m0.now + 1)
    ensures SameRecord(m0, m) || (m.status == status && m.marker == marker)
    ensures o == Done ==> m.status == status && m.marker == marker
    ensures StepAt(m0.script, m0.now).fault in {ErrorBefore, CrashBefore} ==> SameRecord(m0, m)
    ensures StepAt(m0.script, m0.now).fault in {ErrorAfter, CrashAfter} ==> m.status == status && m.marker == marker
    ensures CalmFor(m0, 1) ==> o == Done
  {
    var f := StepAt(m0.script, m0.now).fault;
    m := (if TakesEffect(f) then m0.(status := status, marker := marker) else m0).(now := m0.now + 1);
    o := Report(f);
  }

  /** The final answer of a request, recorded if possible. */
  method Finish(m0: Machine, answer: Answer) returns (m: Machine, a: Answer)
    requires Inv(m0) && (answer == Success ==> MarkedStart(m0))
    ensures Inv(m) && m.starts == m0.starts && m.marker == m0.marker && m.script == m0.script
    ensures (a == Success ==> answer == Success) && (a == Failure ==> answer == Failure)
    ensures m.status == Rejected ==> answer == Failure || m0.status == Rejected
    ensures a == answer || a == Died
    ensures a == answer != Died ==> m.status == (if a == Success then Succeeded else if a == Failure then Rejected else Interrupted)
    ensures CalmFor(m0, 1) ==> a == answer
  {
    var o;
    var status := if answer == Success then Succeeded else if answer == Failure then Rejected else Interrupted;
    m, o := Write(m0, status, m0.marker);
    a := if o == Done then answer else Died;
  }

  method RunStop(m0: Machine) returns (m: Machine, o: Outcome)
    requires Inv(m0)
    ensures Inv(m) && Evolves(m0, m) && SameRecord(m0, m) && m.now == m0.now + 1
    ensures CalmFor(m0, 1) && m0.container.Some? ==>
              o == Done && m.container == Some(m0.container.value.(running := false))
  {
    var step := StepAt(m0.script, m0.now);
    OutsideKeepsInv(m0, step.outside);
    m := Surrounded(m0);
    if TakesEffect(step.fault) && m.container.Some? {
      m := m.(container := Some(m.container.value.(running := false)));
    }
    o := Report(step.fault);
  }

  /** Starting whatever container the service has: the command does not name one. */
  function Started(m: Machine): Machine {
    if m.container.None? || m.container.value.running then m
    else m.(container := Some(Container(m.container.value.id, Some(m.nextStart), true)),
            starts := m.starts + [StartEffect(m.container.value.id, m.nextStart)], nextStart := m.nextStart + 1)
  }

  /** The start effect, on the container that is there when it runs. */
  method RunStart(m0: Machine) returns (m: Machine, o: Outcome)
    requires Inv(m0) && m0.starts == [] && m0.marker.Some? && m0.status != Succeeded
    requires m0.container.Some? ==> !m0.container.value.running
    ensures Inv(m) && SameRecord(m0, m)
    ensures m == Surrounded(m0) || m == Started(Surrounded(m0))
    ensures m.now == m0.now + 1
    ensures m == if StepAt(m0.script, m0.now).fault in {ErrorBefore, CrashBefore} then Surrounded(m0) else Started(Surrounded(m0))
    ensures o == Done ==> m == Started(Surrounded(m0)) && |m.starts| == 1
    ensures CalmFor(m0, 1) && m0.container.Some? ==> o == Done
  {
    var step := StepAt(m0.script, m0.now);
    OutsideKeepsInv(m0, step.outside);
    m := Surrounded(m0);
    o := Report(step.fault);
    if m.container.None? {
      o := if o == Crash then Crash else Error;
    } else if TakesEffect(step.fault) {
      m := Started(m);
    }
  }

  // ---------- The protocol ----------

  /** What a resumed request may conclude from the marker. */
  datatype Decision = AlreadyDone | Proceed | Changed

  function Decide(marker: Marker, observed: Option<Container>): Decision {
    if EffectIsComplete(Restart, marker, observed) then AlreadyDone
    else if marker.phase == EffectStarted && ObservationMatches(marker, observed) then Proceed
    else Changed
  }

  /** The decision is exact: in every reachable state the marked container looks complete
      exactly if this operation started it and it still runs, and looks untouched exactly
      if this operation has not started it. */
  lemma DecisionIsExact(m: Machine)
    requires Inv(m) && m.container.Some? && IsMarked(m, m.container.value.id)
    ensures EffectIsComplete(Restart, m.marker.value, m.container) <==> MarkedStart(m) && m.container.value.running
    ensures ObservationMatches(m.marker.value, m.container) <==> m.starts == []
  {
  }

  lemma DecisionFacts(m: Machine)
    requires Inv(m) && m.marker.Some?
    ensures Decide(m.marker.value, m.container) == AlreadyDone ==> MarkedStart(m)
    ensures Decide(m.marker.value, m.container) == Proceed ==>
              m.starts == [] && m.container.Some? && IsMarked(m, m.container.value.id)
  {
  }

  /** When an undisturbed request can succeed: the container exists, and it is unmarked,
      or marked and not yet started by this operation, or started by it and still running. */
  predicate CanSucceed(m: Machine) {
    && m.container.Some?
    && (m.marker.None? || (IsMarked(m, m.container.value.id) && (m.starts == [] || m.container.value.running)))
  }

  /** A check, the observation that the request is about, and a check. */
  method Observe(m0: Machine) returns (m: Machine, o: Outcome, expected: Option<Container>, at: Machine)
    requires Inv(m0)
    ensures Inv(m) && m.starts == m0.starts && SameRecord(m0, m) && m0.now <= m.now <= m0.now + 3
    ensures o == Done ==> m.now == m0.now + 3 && Inv(at) && at.container == expected && Evolves(at, m)
    ensures CalmFor(m0, 3) ==> o == Done && m == m0.(now := m.now) && expected == m0.container
  {
    var seen;
    expected := None;
    m, o, seen := Look(m0);
    at := m;
    if o == Done {
      m, o, expected := Look(m);
      at := m;
    }
    if o == Done {
      m, o, seen := Look(m);
    }
  }

  /** The first part: observe, decide from the marker when there is one, and write the
      desired state. `expected` is the container that the rest of the request is about, as
      it was in `at`. Only the last step leaves the request to be retried. */
  method Begin(m0: Machine) returns (m: Machine, o: Outcome, answer: Answer, decision: Decision, expected: Option<Container>, at: Machine)
    requires Inv(m0)
    ensures Inv(m) && m.starts == m0.starts && SameRecord(m0, m) && m0.now <= m.now <= m0.now + 5
    ensures answer == Failure || answer == Retry
    ensures o == Done && decision == AlreadyDone ==> MarkedStart(m)
    ensures o == Done && decision == Proceed ==>
              && expected.Some? && Inv(at) && at.container == expected && Evolves(at, m) && m.starts == []
              && (m.marker.Some? ==> MarkedOrGone(at, m))
              && m.now == m0.now + if m.marker.Some? then 5 else 4
    ensures CalmFor(m0, 5) ==>
              && o == Done && m == m0.(now := m.now) && expected == m0.container
              && (decision == Changed <==> !CanSucceed(m0)) && (decision == Proceed ==> m0.starts == [])
  {
    var seen;
    decision, answer := Changed, Failure;
    m, o, expected, at := Observe(m0);
    if o == Done && expected.Some? {
      if m.marker.None? {
        decision := Proceed;
      } else {
        m, o, seen := Look(m);
        DecisionFacts(m);
        decision := if o == Done then Decide(m.marker.value, seen) else Changed;
      }
      if o == Done && decision != Changed {
        answer := Retry;
        m, o, seen := Look(m);
      }
    }
  }

  /** The marked container is the expected one, or the expected one is gone for good. */
  ghost predicate MarkedOrGone(at: Machine, m: Machine)
    requires at.container.Some?
  {
    IsMarked(m, at.container.value.id) || m.container.None? || m.container.value.id != at.container.value.id
  }

  /** Before the marker: a check, then the container must be the expected one. */
  method CheckIdentity(m0: Machine, expected: Container) returns (m: Machine, o: Outcome)
    requires Inv(m0)
    ensures Inv(m) && Evolves(m0, m) && SameRecord(m0, m) && m0.now <= m.now <= m0.now + 2
    ensures o == Done ==> m.now == m0.now + 2 && m.container.Some? && m.container.value.id == expected.id
    ensures CalmFor(m0, 2) && m0.container == Some(expected) ==> o == Done && m.container == m0.container
  {
    var seen;
    m, o, seen := Look(m0);
    if o == Done {
      m, o, seen := Look(m);
      if o == Done && !(seen.Some? && seen.value.id == expected.id) {
        o := Error;
      }
    }
  }

  /** After the marker: the same again, in the other order. */
  method RepeatChecks(m0: Machine, expected: Container) returns (m: Machine, o: Outcome)
    requires Inv(m0)
    ensures Inv(m) && Evolves(m0, m) && SameRecord(m0, m) && m0.now < m.now <= m0.now + 2
    ensures o == Done ==> m.now == m0.now + 2
    ensures expected.id < m0.nextId && !(m0.container.Some? && m0.container.value.id == expected.id) ==> o != Done
    ensures CalmFor(m0, 2) && m0.container == Some(expected) ==> o == Done && m.container == m0.container
  {
    var seen;
    m, o, seen := Look(m0);
    if o == Done && !(seen.Some? && seen.value.id == expected.id) {
      o := Error;
    }
    if o == Done {
      m, o, seen := Look(m);
    }
  }

  /** The second part: check the container's identity, write the marker once, check again.
      What goes wrong in the first two steps, before the marker, is a rejection; later it is
      retried. */
  method MarkEffect(m0: Machine, expected: Container, at: Machine) returns (m: Machine, o: Outcome, answer: Answer)
    requires Inv(m0) && Inv(at) && at.container == Some(expected) && Evolves(at, m0) && m0.starts == []
    requires m0.marker.Some? ==> MarkedOrGone(at, m0)
    requires m0.status != Succeeded
    ensures Inv(m) && m.starts == [] && m.status == m0.status && KeepsMark(m0, m)
    ensures m0.nextStart <= m.nextStart && m0.now <= m.now <= m0.now + 5
    ensures o == Done ==> IsMarked(m, expected.id) && m.now == m0.now + if m0.marker.Some? then 4 else 5
    ensures answer == if m.now <= m0.now + 2 then Failure else Retry
    ensures m.now <= m0.now + 2 ==> m.marker == m0.marker
    ensures CalmFor(m0, 5) && m0.container == Some(expected) && (m0.marker.Some? ==> IsMarked(m0, expected.id)) ==>
              o == Done && m.container == m0.container
  {
    answer := Failure;
    m, o := CheckIdentity(m0, expected);
    if o == Done {
      answer := Retry;
      if m.marker.None? {
        m, o := Write(m, m.status, Some(Marker(EffectStarted, Some(expected.id), expected.startedAt, None)));
      }
      if o == Done {
        m, o := RepeatChecks(m, expected);
      }
    }
  }

  /** Unless it was replaced since, the container is still the expected one. */
  ghost predicate Tracks(m: Machine, id: nat, replaced: bool) {
    && id < m.nextId
    && (m.container.Some? ==> (m.container.value.id == id <==> !replaced) && !m.container.value.running)
  }

  /** A check in the window: it does not look at the container. */
  method Check(m0: Machine, id: nat, replaced: bool) returns (m: Machine, o: Outcome, replaced': bool)
    requires Inv(m0) && Tracks(m0, id, replaced)
    ensures Inv(m) && Evolves(m0, m) && SameRecord(m0, m) && m.now == m0.now + 1
    ensures replaced' == (replaced || StepAt(m0.script, m0.now).outside == Replace) && Tracks(m, id, replaced')
    ensures CalmFor(m0, 1) ==> o == Done && m == m0.(now := m.now)
  {
    var step := StepAt(m0.script, m0.now);
    OutsideKeepsInv(m0, step.outside);
    m, o := Surrounded(m0), Report(step.fault);
    replaced' := replaced || step.outside == Replace;
  }

  /** After the stop: the bind mounts are checked, the release is loaded again, and its bind
      mounts are checked and compared. Bind errors reject, a release that cannot be loaded is
      retried. */
  method CheckAgain(m0: Machine, id: nat) returns (m: Machine, o: Outcome, answer: Answer, replaced: bool)
    requires Inv(m0) && Tracks(m0, id, false)
    ensures Inv(m) && Evolves(m0, m) && SameRecord(m0, m) && m0.now <= m.now <= m0.now + 3
    ensures m0.now < m.now && answer == if m.now == m0.now + 2 then Retry else Failure
    ensures o == Done ==> m.now == m0.now + 3 && Tracks(m, id, replaced)
    ensures o == Done ==> (replaced <==> ReplacedWithin(m0.script, m0.now, m0.now + 2))
    ensures CalmFor(m0, 3) ==> o == Done && m == m0.(now := m.now)
  {
    answer := Failure;
    m, o, replaced := Check(m0, id, false);
    if o == Done {
      answer := Retry;
      m, o, replaced := Check(m, id, replaced);
    }
    if o == Done {
      answer := Failure;
      m, o, replaced := Check(m, id, replaced);
      assert replaced <==> ReplacedWithin(m0.script, m0.now, m0.now + 2);
    }
  }

  /** Stop, and check that the same container stopped. */
  method StopAndCheck(m0: Machine, expected: Container) returns (m: Machine, o: Outcome)
    requires Inv(m0) && m0.starts == [] && IsMarked(m0, expected.id)
    ensures Inv(m) && Evolves(m0, m) && SameRecord(m0, m) && m0.now <= m.now <= m0.now + 2
    ensures o == Done ==> m.now == m0.now + 2 && m.container.Some? && Tracks(m, expected.id, false)
    ensures CalmFor(m0, 2) && m0.container == Some(expected) ==>
              o == Done && m.container == Some(expected.(running := false))
  {
    var seen;
    m, o := RunStop(m0);
    if o == Done {
      m, o, seen := Look(m);
      if o == Done && !(seen.Some? && seen.value.id == expected.id && !seen.value.running) {
        o := Error;
      }
    }
  }

  /** The expected container runs and was started since it was expected. */
  predicate ShowsStart(seen: Option<Container>, expected: Container) {
    seen.Some? && seen.value.id == expected.id && seen.value.running && seen.value.startedAt != expected.startedAt
  }

  /** Check the result of the start, and complete the marker. */
  method ConfirmStart(m0: Machine, expected: Container) returns (m: Machine, o: Outcome)
    requires Inv(m0) && |m0.starts| == 1 && IsMarked(m0, expected.id) && m0.status != Succeeded
    ensures Inv(m) && m.starts == m0.starts && m.status == m0.status && IsMarked(m, expected.id) && m.script == m0.script && m0.now <= m.now <= m0.now + 2
    ensures o == Done ==> MarkedStart(m) && m.marker.value.phase == EffectCompleted
    ensures CalmFor(m0, 2) && ShowsStart(m0.container, expected) ==> o == Done
  {
    var seen;
    m, o, seen := Look(m0);
    if o == Done && !ShowsStart(seen, expected) {
      o := Error;
    }
    if o == Done {
      m, o := Write(m, m.status, Some(m.marker.value.(phase := EffectCompleted)));
    }
  }

  /** The start command takes effect and finds a container. */
  predicate StartsSomething(step: Step) {
    TakesEffect(step.fault) && step.outside != Remove
  }

  /** Start and confirm. `replaced` says what happened in the window so far. */
  method StartAndConfirm(m0: Machine, expected: Container, replaced: bool) returns (m: Machine, o: Outcome)
    requires Inv(m0) && m0.starts == [] && m0.status != Succeeded && IsMarked(m0, expected.id) && Tracks(m0, expected.id, replaced)
    requires expected.startedAt.Some? ==> expected.startedAt.value < m0.nextStart
    ensures Inv(m) && m.status == m0.status && IsMarked(m, expected.id) && m.script == m0.script && m0.now < m.now <= m0.now + 3
    ensures o == Done ==> MarkedStart(m) && m.marker.value.phase == EffectCompleted
    ensures m.starts != [] ==> (MarkedStart(m) <==> !(replaced || StepAt(m0.script, m0.now).outside == Replace))
    ensures m0.container.Some? && StartsSomething(StepAt(m0.script, m0.now)) ==> m.starts != []
    ensures CalmFor(m0, 3) && m0.container == Some(expected.(running := false)) ==> o == Done
  {
    m, o := RunStart(m0);
    if o == Done {
      m, o := ConfirmStart(m, expected);
    }
  }

  /** The third part: stop, check, start, confirm. If a start happened, it was of the marked
      container if and only if nothing replaced that container between the check that it
      stopped and the start. The checks of the bind mounts reject, before anything is started;
      everything else is retried. */
  method Effect(m0: Machine, expected: Container) returns (m: Machine, o: Outcome, answer: Answer)
    requires Inv(m0) && m0.starts == [] && m0.status != Succeeded && IsMarked(m0, expected.id)
    requires expected.startedAt.Some? ==> expected.startedAt.value < m0.nextStart
    ensures Inv(m) && m.status == m0.status && IsMarked(m, expected.id) && m.script == m0.script && m0.now <= m.now <= m0.now + 8
    ensures o == Done ==> MarkedStart(m) && m.marker.value.phase == EffectCompleted
    ensures answer == if m.now == m0.now + 3 || m.now == m0.now + 5 then Failure else Retry
    ensures answer == Failure ==> m.starts == []
    ensures m.starts != [] ==> (MarkedStart(m) <==> !ReplacedWithin(m0.script, m0.now + 2, m0.now + 5))
    ensures CalmFor(m0, 5) && m0.container == Some(expected) && StartsSomething(StepAt(m0.script, m0.now + 5)) ==> m.starts != []
    ensures CalmFor(m0, 8) && m0.container == Some(expected) ==> o == Done
  {
    answer := Retry;
    m, o := StopAndCheck(m0, expected);
    if o == Done {
      var replaced;
      m, o, answer, replaced := CheckAgain(m, expected.id);
      if o == Done {
        answer := Retry;
        WindowCloses(m0.script, m0.now + 2);
        m, o := StartAndConfirm(m, expected, replaced);
      }
    }
  }

  lemma WindowCloses(script: seq<Step>, from: nat)
    ensures ReplacedWithin(script, from, from + 3) <==>
            ReplacedWithin(script, from, from + 2) || StepAt(script, from + 3).outside == Replace
  {
  }

  /** The steps of a request in which a replacement of the container goes unnoticed: after
      the check that it stopped, up to the start. */
  const WINDOW_OPENS: nat := 12
  const WINDOW_CLOSES: nat := 15
  const WHOLE_REQUEST: nat := 19

  /** One request. However it ends, and whatever the surroundings do, at most one start has
      happened so far, success is answered only if it was of the marked container, and a
      request that is rejected has started nothing. A start is of the marked container if
      and only if nothing replaced that container between the check that it stopped and the
      start. Undisturbed, the request succeeds exactly when it can. */
  method Request(m0: Machine) returns (m: Machine, answer: Answer)
    requires Inv(m0)
    ensures Inv(m) && (answer == Success ==> MarkedStart(m)) && m0.starts <= m.starts && KeepsMark(m0, m)
    ensures answer == Failure || (m.status == Rejected && m0.status != Rejected) ==> m.starts == m0.starts
    ensures m0.status == Succeeded || m0.status == Rejected ==> m == m0 && answer == Replayed
    ensures answer == Success ==> m.status == Succeeded
    ensures answer == Failure ==> m.status == Rejected
    ensures answer == Retry ==> m.status == Interrupted
    ensures m.starts != m0.starts ==> (MarkedStart(m) <==> !ReplacedWithin(m0.script, m0.now + WINDOW_OPENS, m0.now + WINDOW_CLOSES))
    ensures (&& CalmFor(m0, WINDOW_CLOSES) && StartsSomething(StepAt(m0.script, m0.now + WINDOW_CLOSES))
             && m0.status != Succeeded && m0.status != Rejected && CanSucceed(m0) && m0.starts == [])
            ==> m.starts != []
    ensures CalmFor(m0, WHOLE_REQUEST) && m0.status != Succeeded && m0.status != Rejected ==>
              answer == if CanSucceed(m0) then Success else Failure
  {
    m, answer := m0, Replayed;
    if m.status != Succeeded && m.status != Rejected {
      var o;
      m, o := Write(m, InProgress, m.marker);
      answer := Died;
      if o == Done {
        m, o, answer := Act(m);
        if o == Crash {
          answer := Died;
        } else {
          m, answer := Finish(m, answer);
        }
      }
    }
  }

  /** The three parts, one after the other. */
  method Act(m0: Machine) returns (m: Machine, o: Outcome, answer: Answer)
    requires Inv(m0) && m0.status == InProgress
    ensures Inv(m) && (answer == Success ==> MarkedStart(m)) && m0.starts <= m.starts && KeepsMark(m0, m)
    ensures m.status == m0.status && (answer == Failure ==> m.starts == m0.starts)
    ensures m.starts != m0.starts ==>
              (MarkedStart(m) <==> !ReplacedWithin(m0.script, m0.now + WINDOW_OPENS - 1, m0.now + WINDOW_CLOSES - 1))
    ensures CalmFor(m0, WINDOW_CLOSES - 1) && CanSucceed(m0) && m0.starts == [] && StartsSomething(StepAt(m0.script, m0.now + WINDOW_CLOSES - 1)) ==>
              m.starts != []
    ensures m0.now <= m.now <= m0.now + 17
    ensures CalmFor(m0, 17) ==> o == Done && answer == if CanSucceed(m0) then Success else Failure
  {
    var decision, expected, at;
    m, o, answer, decision, expected, at := Begin(m0);
    if o == Done && decision == Proceed {
      m, o, answer := MarkEffect(m, expected.value, at);
      if o == Done {
        m, o, answer := Effect(m, expected.value);
        answer := if o == Done then Success else answer;
      }
    } else if o == Done {
      answer := if decision == AlreadyDone then Success else Failure;
    }
  }

  /** The machine before the first request. */
  function Fresh(container: Option<Container>, script: seq<Step>): Machine {
    var nextId := if container.Some? then container.value.id + 1 else 0;
    var nextStart := if container.Some? && container.value.startedAt.Some? then container.value.startedAt.value + 1 else 0;
    Machine(NoRecord, None, container, nextId, nextStart, [], script, 0)
  }

  /** Any number of requests with the same key, in any surroundings that do not start the
      container: at most one start over all of them, and never a success without a start of
      the container that the marker names. A request that nothing disturbs is answered for
      good. */
  method Requests(container: Option<Container>, scripts: seq<seq<Step>>) returns (m: Machine, answers: seq<Answer>)
    ensures Inv(m) && |m.starts| <= 1 && |answers| == |scripts|
    ensures (exists i :: 0 <= i < |answers| && answers[i] == Success) ==> MarkedStart(m)
    ensures (forall k :: 0 <= k < |scripts| ==> !ReplacedWithin(scripts[k], WINDOW_OPENS, WINDOW_CLOSES)) ==>
              m.starts != [] ==> MarkedStart(m)
    ensures forall k :: 0 <= k < |scripts| && scripts[k] == [] ==> answers[k] in {Success, Failure, Replayed}
  {
    m := Fresh(container, []);
    answers := [];
    for k := 0 to |scripts|
      invariant Inv(m) && |answers| == k
      invariant (exists i :: 0 <= i < |answers| && answers[i] == Success) ==> MarkedStart(m)
      invariant (forall i :: 0 <= i < k ==> !ReplacedWithin(scripts[i], WINDOW_OPENS, WINDOW_CLOSES)) ==>
                  m.starts != [] ==> MarkedStart(m)
      invariant forall i :: 0 <= i < k && scripts[i] == [] ==> answers[i] in {Success, Failure, Replayed}
    {
      var answer;
      m, answer := Request(m.(script := scripts[k], now := 0));
      answers := answers + [answer];
    }
  }

  // ---------- What the surroundings can spoil ----------

  /** Why the surroundings must not start the container: in every state where this
      operation has not started the marked container, a start by someone else is taken
      for its own, so that the request would report success without one. */
  lemma OutsideStartIsMistaken(m: Machine)
    requires Inv(m) && m.container.Some? && IsMarked(m, m.container.value.id) && m.starts == []
    ensures Decide(m.marker.value, m.container) != AlreadyDone
    ensures Decide(m.marker.value, Some(Container(m.container.value.id, Some(m.nextStart), true))) == AlreadyDone
  {
  }

  /** A container that is replaced just before the start: the operation starts the new one,
      which its marker does not name, and does not report success. */
  method ReplacedBeforeStart() returns (m: Machine, answer: Answer)
    ensures |m.starts| == 1 && m.marker.Some? && m.marker.value.preId != Some(m.starts[0].id)
    ensures answer != Success
  {
    var script := seq(WINDOW_CLOSES, _ => CalmStep) + [Step(Replace, Clean)];
    m, answer := Request(Fresh(Some(Container(7, Some(3), true)), script));
    assert StepAt(script, WINDOW_CLOSES).outside == Replace;
  }
}
