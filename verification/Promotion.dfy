/** Promotion of a release: the active and pending links and the application's
    metadata, under ambiguous errors, crashes and power loss. */
module Promotion {
  import opened Artifacts
  import opened Faults

  datatype DesiredState = ShouldRun | ShouldStop

  /** What the application directory says. */
  datatype AppState = AppState(active: Option<Uuid>, pending: Option<Uuid>, desired: DesiredState, lastOperation: Uuid)

  /** The directory as a log: the first state survives any power loss, the last one is
      visible. All steps change the same directory, so one sync makes everything durable. */
  datatype Machine = Machine(log: seq<AppState>, faults: seq<Fault>)

  /** The arguments of one promotion, the same in every retry. */
  datatype Request = Request(expected: Option<Uuid>, candidate: Uuid, desired: DesiredState, operation: Uuid)

  datatype Link = ActiveLink | PendingLink

  function Visible(m: Machine): AppState
    requires |m.log| > 0
  {
    m.log[|m.log| - 1]
  }

  function LinkOf(s: AppState, link: Link): Option<Uuid> {
    if link == ActiveLink then s.active else s.pending
  }

  function WithLink(s: AppState, link: Link, target: Option<Uuid>): AppState {
    if link == ActiveLink then s.(active := target) else s.(pending := target)
  }

  // ---------- What holds at every moment of a promotion ----------

  /** The active release is the expected one or the candidate; while it is not the
      candidate, the candidate is pending; and the metadata names the operation only
      once the links are final. */
  ghost predicate OnPath(r: Request, s: AppState) {
    && (s.active == r.expected || s.active == Some(r.candidate))
    && (s.active != Some(r.candidate) ==> s.pending == Some(r.candidate))
    && (s.lastOperation == r.operation ==> s.active == Some(r.candidate) && s.pending != Some(r.candidate))
  }

  ghost predicate AllOnPath(r: Request, log: seq<AppState>) {
    forall s :: s in log ==> OnPath(r, s)
  }

  /** The only states that a promotion moves through from a visible state `s0`. */
  ghost predicate Progress(r: Request, s0: AppState, s: AppState) {
    && (s.active == s0.active || s.active == Some(r.candidate))
    && (s.pending == s0.pending || (s0.pending == Some(r.candidate) && s.pending.None? && s.active == Some(r.candidate)))
    && ((s.desired == s0.desired && s.lastOperation == s0.lastOperation)
        || (s.desired == r.desired && s.lastOperation == r.operation && IsPromoted(r, s)))
  }

  predicate IsPromoted(r: Request, s: AppState) {
    s.active == Some(r.candidate) && s.pending != Some(r.candidate)
  }

  predicate IsFinal(r: Request, s: AppState) {
    IsPromoted(r, s) && s.desired == r.desired && s.lastOperation == r.operation
  }

  // ---------- Primitive effects ----------

  /** An effect that may fail but changes nothing we model: a read, a check or a
      temporary file. */
  method Attempt(m0: Machine) returns (m: Machine, o: Outcome)
    ensures m.log == m0.log
    ensures m0.faults == [] ==> o == Done && m.faults == []
  {
    m := Machine(m0.log, LaterFaults(m0.faults));
    o := Report(NextFault(m0.faults));
  }

  /** A rename or unlink in the application directory. */
  method Change(m0: Machine, s: AppState) returns (m: Machine, o: Outcome)
    requires |m0.log| > 0
    ensures m.log == if NextFault(m0.faults) in {ErrorBefore, CrashBefore} then m0.log else m0.log + [s]
    ensures o == Done ==> m.log == m0.log + [s]
    ensures m0.faults == [] ==> o == Done && m.faults == []
  {
    var f := NextFault(m0.faults);
    m := Machine(if TakesEffect(f) then m0.log + [s] else m0.log, LaterFaults(m0.faults));
    o := Report(f);
  }

  method Sync(m0: Machine) returns (m: Machine, o: Outcome)
    requires |m0.log| > 0
    ensures m.log == if NextFault(m0.faults) in {ErrorBefore, CrashBefore} then m0.log else [Visible(m0)]
    ensures o == Done ==> m.log == [Visible(m0)]
    ensures m0.faults == [] ==> o == Done && m.faults == []
  {
    var f := NextFault(m0.faults);
    m := Machine(if TakesEffect(f) then [Visible(m0)] else m0.log, LaterFaults(m0.faults));
    o := Report(f);
  }

  /** The log changed only by one step from `before` to `after`, and by syncing. */
  ghost predicate OneStep(m0: Machine, m: Machine, after: AppState)
    requires |m0.log| > 0
  {
    && |m.log| > 0
    && (forall s :: s in m.log ==> s in m0.log || s == after)
    && (Visible(m) == Visible(m0) || Visible(m) == after)
  }

  /** Change, then sync. */
  method Replace(m0: Machine, s: AppState) returns (m: Machine, o: Outcome)
    requires |m0.log| > 0
    ensures OneStep(m0, m, s)
    ensures o == Done ==> m.log == [s]
    ensures m0.faults == [] ==> o == Done && m.faults == []
  {
    m, o := Attempt(m0);
    if o == Done {
      m, o := Change(m, s);
      if o == Done {
        m, o := Sync(m);
      }
    }
  }

  /** switch_release_link */
  method SwitchLink(m0: Machine, link: Link, target: Uuid) returns (m: Machine, o: Outcome)
    requires |m0.log| > 0
    ensures OneStep(m0, m, WithLink(Visible(m0), link, Some(target)))
    ensures o == Done ==> m.log == [WithLink(Visible(m0), link, Some(target))]
    ensures m0.faults == [] ==> o == Done && m.faults == []
  {
    m, o := Replace(m0, WithLink(Visible(m0), link, Some(target)));
  }

  /** remove_release_link: a missing link is fine. */
  method RemoveLink(m0: Machine, link: Link) returns (m: Machine, o: Outcome)
    requires |m0.log| > 0
    ensures OneStep(m0, m, WithLink(Visible(m0), link, None))
    ensures o == Done ==> Visible(m) == WithLink(Visible(m0), link, None)
    ensures o == Done && LinkOf(Visible(m0), link).Some? ==> |m.log| == 1
    ensures m0.faults == [] ==> o == Done && m.faults == []
  {
    if LinkOf(Visible(m0), link).None? {
      m, o := Attempt(m0);
    } else {
      m, o := Change(m0, WithLink(Visible(m0), link, None));
      if o == Done {
        m, o := Sync(m);
      }
    }
  }

  /** remove_release_link_if: an error is forgiven when the link is seen to be gone. */
  method RemoveLinkIf(m0: Machine, link: Link, target: Uuid) returns (m: Machine, o: Outcome)
    requires |m0.log| > 0
    ensures OneStep(m0, m, if LinkOf(Visible(m0), link) == Some(target) then WithLink(Visible(m0), link, None) else Visible(m0))
    ensures LinkOf(Visible(m0), link) != Some(target) ==> m.log == m0.log
    ensures o == Done ==> LinkOf(Visible(m), link) != Some(target)
    ensures o == Done && LinkOf(Visible(m0), link) == Some(target) ==> |m.log| == 1
    ensures m0.faults == [] ==> o == Done && m.faults == []
  {
    m, o := Attempt(m0);
    if o == Done && LinkOf(Visible(m), link) == Some(target) {
      m, o := RemoveLink(m, link);
      if o == Error {
        m, o := Attempt(m);
        if o == Done {
          if LinkOf(Visible(m), link) == Some(target) {
            o := Error;
          } else {
            m, o := Sync(m);
          }
        }
      }
    }
  }

  /** Writes the metadata file by temporary file, rename and sync. */
  method SetDesiredState(m0: Machine, r: Request) returns (m: Machine, o: Outcome)
    requires |m0.log| > 0
    ensures OneStep(m0, m, Visible(m0).(desired := r.desired, lastOperation := r.operation))
    ensures o == Done ==> m.log == [Visible(m0).(desired := r.desired, lastOperation := r.operation)]
    ensures m0.faults == [] ==> o == Done && m.faults == []
  {
    m, o := Replace(m0, Visible(m0).(desired := r.desired, lastOperation := r.operation));
  }

  // ---------- The protocol ----------

  /** Everything a call may do to the log, starting from the visible state `s0`. */
  ghost predicate Progresses(r: Request, m0: Machine, m: Machine)
    requires |m0.log| > 0
  {
    && |m.log| > 0
    && (forall s :: s in m.log ==> s in m0.log || Progress(r, Visible(m0), s))
    && Progress(r, Visible(m0), Visible(m))
  }

  /** Switching the active link; an error is forgiven when the link is seen to point at
      the candidate. */
  method SwitchActive(m0: Machine, r: Request) returns (m: Machine, o: Outcome)
    requires |m0.log| > 0
    ensures OneStep(m0, m, Visible(m0).(active := Some(r.candidate)))
    ensures o == Done ==> m.log == [Visible(m0).(active := Some(r.candidate))]
    ensures m0.faults == [] ==> o == Done && m.faults == []
  {
    m, o := SwitchLink(m0, ActiveLink, r.candidate);
    if o == Error {
      m, o := Attempt(m);
      if o == Done {
        if Visible(m).active != Some(r.candidate) {
          o := Error;
        } else {
          m, o := Sync(m);
        }
      }
    }
  }

  /** Removing the pending link, with the caller's own second look. */
  method ClearPending(m0: Machine, r: Request) returns (m: Machine, o: Outcome)
    requires |m0.log| > 0 && Visible(m0).active == Some(r.candidate)
    ensures Progresses(r, m0, m) && Visible(m).desired == Visible(m0).desired && Visible(m).lastOperation == Visible(m0).lastOperation
    ensures o == Done ==> IsPromoted(r, Visible(m))
    ensures o == Done && Visible(m0).pending == Some(r.candidate) ==> |m.log| == 1
    ensures m0.faults == [] ==> o == Done && m.faults == []
  {
    m, o := RemoveLinkIf(m0, PendingLink, r.candidate);
    if o == Error {
      m, o := Attempt(m);
      if o == Done {
        if Visible(m).pending == Some(r.candidate) {
          o := Error;
        } else {
          m, o := Sync(m);
        }
      }
    }
  }

  /** commit_active: refused, and nothing changed, unless the links are as expected. */
  method CommitActive(m0: Machine, r: Request) returns (m: Machine, o: Outcome)
    requires |m0.log| > 0
    ensures Progresses(r, m0, m) && Visible(m).desired == Visible(m0).desired && Visible(m).lastOperation == Visible(m0).lastOperation
    ensures Visible(m0).active != r.expected || Visible(m0).pending != Some(r.candidate) ==> m.log == m0.log && o != Done
    ensures o == Done ==> |m.log| == 1 && IsPromoted(r, Visible(m))
    ensures m0.faults == [] && Visible(m0).active == r.expected && Visible(m0).pending == Some(r.candidate) ==> o == Done && m.faults == []
  {
    m, o := Attempt(m0);
    if o == Done {
      if Visible(m).active != r.expected || Visible(m).pending != Some(r.candidate) {
        o := Error;
      } else {
        m, o := SwitchActive(m, r);
        if o == Done {
          m, o := ClearPending(m, r);
        }
      }
    }
  }

  /** The first half of finalize_active: the links, durable before the metadata. */
  method PromoteLinks(m0: Machine, r: Request) returns (m: Machine, o: Outcome)
    requires |m0.log| > 0
    ensures Progresses(r, m0, m) && Visible(m).desired == Visible(m0).desired && Visible(m).lastOperation == Visible(m0).lastOperation
    ensures Visible(m0).active != Some(r.candidate) && (Visible(m0).active != r.expected || Visible(m0).pending != Some(r.candidate)) ==>
              m.log == m0.log && o != Done
    ensures o == Done ==> |m.log| == 1 && IsPromoted(r, Visible(m))
    ensures m0.faults == [] && OnPath(r, Visible(m0)) ==> o == Done && m.faults == []
  {
    m, o := Attempt(m0);
    if o == Done {
      if Visible(m).active == Some(r.candidate) {
        m, o := RemoveLinkIf(m, PendingLink, r.candidate);
        if o == Done {
          m, o := Sync(m);
        }
      } else if Visible(m).active == r.expected {
        m, o := CommitActive(m, r);
      } else {
        o := Error;
      }
    }
  }

  /** The second half: the metadata, with a second look after an error, then durability. */
  method PromoteMetadata(m0: Machine, r: Request) returns (m: Machine, o: Outcome)
    requires |m0.log| > 0 && IsPromoted(r, Visible(m0))
    ensures Progresses(r, m0, m)
    ensures o == Done ==> m.log == [Visible(m0).(desired := r.desired, lastOperation := r.operation)]
    ensures m0.faults == [] ==> o == Done && m.faults == []
  {
    m, o := Attempt(m0);
    if o == Done && (Visible(m).desired != r.desired || Visible(m).lastOperation != r.operation) {
      m, o := SetDesiredState(m, r);
      if o == Error {
        m, o := Attempt(m);
        if o == Done && (Visible(m).desired != r.desired || Visible(m).lastOperation != r.operation) {
          o := Error;
        }
      }
    }
    if o == Done {
      m, o := Sync(m);
    }
  }

  /** finalize_active. Success means that the final state is durable; a foreign active
      release, or a missing pending link, is refused with nothing changed; however it
      is interrupted, the state stays on the path; undisturbed, it succeeds. */
  method FinalizeActive(m0: Machine, r: Request) returns (m: Machine, o: Outcome)
    requires |m0.log| > 0
    ensures |m.log| > 0 && (AllOnPath(r, m0.log) ==> AllOnPath(r, m.log))
    ensures Visible(m0).active != r.expected && Visible(m0).active != Some(r.candidate) ==> m.log == m0.log && o != Done
    ensures Visible(m0).active != Some(r.candidate) && Visible(m0).pending != Some(r.candidate) ==> m.log == m0.log && o != Done
    ensures o == Done ==> |m.log| == 1 && IsFinal(r, Visible(m))
    ensures m0.faults == [] && OnPath(r, Visible(m0)) ==> o == Done
  {
    m, o := PromoteLinks(m0, r);
    ProgressKeepsPath(r, m0, m);
    if o == Done {
      var m1 := m;
      m, o := PromoteMetadata(m1, r);
      ProgressKeepsPath(r, m1, m);
    }
  }

  lemma ProgressKeepsPath(r: Request, m0: Machine, m: Machine)
    requires |m0.log| > 0 && Progresses(r, m0, m)
    ensures AllOnPath(r, m0.log) ==> AllOnPath(r, m.log)
  {
    if AllOnPath(r, m0.log) {
      assert OnPath(r, Visible(m0));
      forall s | s in m.log
        ensures OnPath(r, s)
      {
        assert s in m0.log || Progress(r, Visible(m0), s);
      }
    }
  }

  /** set_pending starts a promotion: it puts the state on the path of every request that
      expects the current active release and is new. */
  method SetPending(m0: Machine, candidate: Uuid) returns (m: Machine, o: Outcome)
    requires |m0.log| > 0
    ensures OneStep(m0, m, Visible(m0).(pending := Some(candidate)))
    ensures o == Done ==> m.log == [Visible(m0).(pending := Some(candidate))]
    ensures o == Done ==> forall r: Request ::
              r.candidate == candidate && r.expected == Visible(m0).active != Some(candidate) && r.operation != Visible(m0).lastOperation ==>
                AllOnPath(r, m.log)
    ensures m0.faults == [] ==> o == Done && m.faults == []
  {
    m, o := Attempt(m0);
    if o == Done {
      m, o := SwitchLink(m, PendingLink, candidate);
    }
  }

  // ---------- Repeated, interrupted promotions ----------

  /** One attempt: the faults it meets, and after it perhaps a power loss that keeps
      only part of the log. */
  datatype Try = Try(faults: seq<Fault>, powerLoss: Option<nat>)

  /** Any number of interrupted attempts, then an undisturbed one: the state is on the
      path throughout, and the last attempt always completes the promotion. */
  method PromoteEventually(log0: seq<AppState>, r: Request, tries: seq<Try>) returns (trace: seq<seq<AppState>>, final: AppState)
    requires |log0| > 0 && AllOnPath(r, log0)
    ensures |trace| == |tries| + 2 && trace[0] == log0
    ensures forall i :: 0 <= i < |trace| ==> AllOnPath(r, trace[i])
    ensures trace[|tries| + 1] == [final] && IsFinal(r, final)
    ensures forall n :: 0 <= n < |tries| && tries[n] == Try([], None) ==> |trace[n + 1]| == 1 && IsFinal(r, trace[n + 1][0])
  {
    trace := [log0];
    var log := log0;
    for n := 0 to |tries|
      invariant |log| > 0 && AllOnPath(r, log)
      invariant |trace| == n + 1 && trace[0] == log0
      invariant forall i :: 0 <= i < |trace| ==> AllOnPath(r, trace[i])
      invariant forall i :: 0 <= i < n && tries[i] == Try([], None) ==> |trace[i + 1]| == 1 && IsFinal(r, trace[i + 1][0])
    {
      var m, o := FinalizeActive(Machine(log, tries[n].faults), r);
      log := m.log;
      if tries[n].powerLoss.Some? && tries[n].powerLoss.value < |log| {
        log := [log[tries[n].powerLoss.value]];
      }
      trace := trace + [log];
    }
    var m, o := FinalizeActive(Machine(log, []), r);
    trace := trace + [m.log];
    final := Visible(m);
  }
}
