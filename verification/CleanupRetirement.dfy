/** Retirement of finished operations: the payload is destroyed only under an exact
    proof, every interrupted stage stays identifiable, and one undisturbed pass
    retires everything that is proved. */
module CleanupRetirement {
  import opened Artifacts
  import opened Faults
  import opened CleanupModel
  import opened CleanupSteps
  import opened CleanupReferences
  import opened CleanupEffects
  import opened CleanupLoop
  import opened CleanupExecution

  predicate HasTombstone(t: Trash) {
    t.dir.Some? || t.retired.Some?
  }

  /** A finished operation whose response is recorded. */
  predicate Proved(o: Operation) {
    Terminal(o.status) && o.proof.Succeeded?
  }

  /** Only the retirement of `op` progressed: no artifact in the store moved. */
  ghost predicate RetireFrame(w0: World, w1: World, op: OpId) {
    && OnlyOp(w0, w1, op) && op in w0.db
    && w1.db[op] == w0.db[op].(retiring := w1.db[op].retiring, retired := w1.db[op].retired)
    && Visible(w1).canonical == Visible(w0).canonical
    && (WorldRefs(w0) ==> WorldRefs(w1))
  }

  /** What the code can see tells exactly which operations still hold reservations:
      a tombstone, a pending retirement, or an unfinished status. */
  lemma HeldIffUnretired(w: World, op: OpId)
    requires Inv(w) && op in w.db
    ensures !w.db[op].retired <==>
            HasTombstone(TrashOf(Visible(w), op)) || w.db[op].retiring || !Terminal(w.db[op].status)
  {
    VisibleHolds(w, op);
  }

  /** Any stage of a retirement is consistent while the intent is recorded. */
  lemma StageIsConsistent(w: World, op: OpId, t: Trash)
    requires Inv(w) && op in w.db && w.db[op].retiring && RetirementStage(w.db[op], t)
    ensures OpInv(op, w.db[op], t, Visible(w).canonical, w.born)
  {
    VisibleHolds(w, op);
  }

  /** One destructive step, allowed only while the retirement intent is recorded. */
  method Advance(m0: Machine, op: OpId, t: Trash, dirs: set<Dir>) returns (m: Machine, o: Outcome)
    requires Inv(m0.w) && op in m0.w.db && m0.w.db[op].retiring && RetirementStage(m0.w.db[op], t)
    requires StaysOutside(op, dirs, TrashOf(Visible(m0.w), op), t)
    ensures Inv(m.w) && m.w.db == m0.w.db && RetireFrame(m0.w, m.w, op)
    ensures o == Done ==> TrashOf(Visible(m.w), op) == t
    ensures forall e :: e in m.w.log ==> e in m0.w.log || TrashOf(e.fs, op) == t
    ensures m0.faults == [] ==> o == Done && m.faults == []
  {
    StageIsConsistent(m0.w, op, t);
    m, o := ChangeTrash(m0, op, t, dirs);
  }

  /** remove_dir_all(payload): entries disappear one at a time, then the directory. */
  method RemovePayload(m0: Machine, op: OpId) returns (m: Machine, o: Outcome)
    requires Inv(m0.w) && op in m0.w.db && m0.w.db[op].retiring
    requires TrashOf(Visible(m0.w), op).dir.Some? && TrashOf(Visible(m0.w), op).retired.None?
    ensures Inv(m.w) && m.w.db == m0.w.db && RetireFrame(m0.w, m.w, op)
    ensures o == Done ==> TrashOf(Visible(m.w), op) == Trash(false, Some(OpDir(Some(m0.w.db[op].plan), None)), None)
    ensures m0.faults == [] ==> o == Done && m.faults == []
  {
    VisibleHolds(m0.w, op);
    var plan := m0.w.db[op].plan;
    m, o := m0, Done;
    var d := TrashOf(Visible(m.w), op).dir.value;
    if d.payload.Some? {
      var payload: map<nat, Inode> := d.payload.value;
      while o == Done && payload != map[]
        invariant Inv(m.w) && m.w.db == m0.w.db && RetireFrame(m0.w, m.w, op)
        invariant forall i :: i in payload ==> i < |plan|
        invariant o == Done ==> TrashOf(Visible(m.w), op) == Trash(false, Some(OpDir(Some(plan), Some(payload))), None)
        invariant m0.faults == [] ==> o == Done && m.faults == []
        decreases o == Done, |payload|
      {
        var i :| i in payload;
        payload := payload - {i};
        m, o := Advance(m, op, Trash(false, Some(OpDir(Some(plan), Some(payload))), None), {PayloadDir(op)});
      }
      if o == Done {
        m, o := Advance(m, op, Trash(false, Some(OpDir(Some(plan), None)), None), {OperationDir(op)});
      }
    }
  }

  /** The first half of finalize_cleanup_tombstone: empty the directory and move its
      marker out, so that the marker outlives everything it describes. */
  method RetireMarker(m0: Machine, op: OpId) returns (m: Machine, o: Outcome)
    requires Inv(m0.w) && op in m0.w.db && m0.w.db[op].retiring
    requires TrashOf(Visible(m0.w), op).dir.Some? && TrashOf(Visible(m0.w), op).retired.None?
    ensures Inv(m.w) && m.w.db == m0.w.db && RetireFrame(m0.w, m.w, op)
    ensures o == Done ==> TrashOf(Visible(m.w), op) == Trash(false, Some(OpDir(None, None)), Some(m0.w.db[op].plan))
    ensures o == Done ==> forall e :: e in m.w.log ==> !DirectoryView(TrashOf(e.fs, op)).1
    ensures m0.faults == [] ==> o == Done && m.faults == []
  {
    m, o := RemovePayload(m0, op);
    if o == Done {
      m, o := SyncDirectory(m, op);
    }
    if o == Done {
      m, o := Advance(m, op, Trash(false, Some(OpDir(None, None)), Some(m0.w.db[op].plan)), {OperationDir(op), TrashRoot});
    }
  }

  lemma StageOf(w: World, op: OpId)
    requires Inv(w) && op in w.db && w.db[op].retiring
    ensures RetirementStage(w.db[op], TrashOf(Visible(w), op))
  {
    VisibleHolds(w, op);
  }

  /** Syncing the operation's directory makes durable what it holds, and forgets no state that
      was durable before. */
  method SyncDirectory(m0: Machine, op: OpId) returns (m: Machine, o: Outcome)
    requires Inv(m0.w) && op in m0.w.db
    ensures Inv(m.w) && m.w.db == m0.w.db && RetireFrame(m0.w, m.w, op) && Visible(m.w) == Visible(m0.w)
    ensures forall e :: e in m.w.log ==> e in m0.w.log
    ensures o == Done ==> forall e :: e in m.w.log ==> DirectoryView(TrashOf(e.fs, op)) == DirectoryView(TrashOf(Visible(m0.w), op))
    ensures m0.faults == [] ==> o == Done && m.faults == []
  {
    FlushAgreesOnDirectory(m0.w.log, op);
    FlushKeepsLog(m0.w.log, OperationDir(op));
    SyncKeepsInv(m0.w, OperationDir(op));
    SyncKeepsRefs(m0.w, OperationDir(op));
    m := Effect(m0, Synced(m0.w, OperationDir(op)));
    o := Report(NextFault(m0.faults));
  }

  /** Both barriers of the marker's move: it has arrived, and it has left. */
  method ConfirmMarkerMoved(m0: Machine, op: OpId) returns (m: Machine, o: Outcome)
    requires Inv(m0.w) && op in m0.w.db && m0.w.db[op].retiring
    requires TrashOf(Visible(m0.w), op).retired.Some?
    ensures Inv(m.w) && m.w.db == m0.w.db && RetireFrame(m0.w, m.w, op)
    ensures Visible(m.w) == Visible(m0.w)
    ensures o == Done ==> forall e :: e in m.w.log ==> TrashOf(e.fs, op).retired == Some(m0.w.db[op].plan)
    ensures o == Done && TrashOf(Visible(m.w), op).dir.Some? ==> forall e :: e in m.w.log ==> DirectoryView(TrashOf(e.fs, op)) == (None, false)
    ensures m0.faults == [] ==> o == Done && m.faults == []
  {
    StageOf(m0.w, op);
    FlushAgreesOnRoot(m0.w.log, op);
    m, o := Sync(m0, TrashRoot);
    if o == Done && TrashOf(Visible(m.w), op).dir.Some? {
      m, o := SyncDirectory(m, op);
    }
  }

  /** The empty directory goes only after both barriers, and durably. */
  method RemoveDirectory(m0: Machine, op: OpId) returns (m: Machine, o: Outcome)
    requires Inv(m0.w) && op in m0.w.db && m0.w.db[op].retiring
    requires TrashOf(Visible(m0.w), op).retired.Some?
    ensures Inv(m.w) && m.w.db == m0.w.db && RetireFrame(m0.w, m.w, op)
    ensures o == Done ==> forall e :: e in m.w.log ==> TrashOf(e.fs, op) == Trash(false, None, Some(m0.w.db[op].plan))
    ensures m0.faults == [] ==> o == Done && m.faults == []
  {
    StageOf(m0.w, op);
    m, o := ConfirmMarkerMoved(m0, op);
    if o == Done && TrashOf(Visible(m.w), op).dir.Some? {
      m, o := Advance(m, op, Trash(false, None, Some(m0.w.db[op].plan)), {TrashRoot});
    }
    if o == Done {
      FlushAgreesOnRoot(m.w.log, op);
      m, o := Sync(m, TrashRoot);
      MarkerAlone(m.w, op, m0.w.db[op].plan);
    }
  }

  /** What the trash root holds tells everything about a directory that is gone. */
  lemma MarkerAlone(w: World, op: OpId, plan: seq<Artifact>)
    ensures forall e :: e in w.log && RootView(TrashOf(e.fs, op)) == RootView(Trash(false, None, Some(plan))) ==>
              TrashOf(e.fs, op) == Trash(false, None, Some(plan))
  {
  }

  /** The second half: the directory, then the marker, each made durable. */
  method RemoveTombstone(m0: Machine, op: OpId) returns (m: Machine, o: Outcome)
    requires Inv(m0.w) && op in m0.w.db && m0.w.db[op].retiring
    requires TrashOf(Visible(m0.w), op).retired.Some?
    ensures Inv(m.w) && m.w.db == m0.w.db && RetireFrame(m0.w, m.w, op)
    ensures o == Done ==> forall e :: e in m.w.log ==> TrashOf(e.fs, op) == EmptyTrash
    ensures m0.faults == [] ==> o == Done && m.faults == []
  {
    m, o := RemoveDirectory(m0, op);
    if o == Done {
      assert m.w.log[|m.w.log| - 1] in m.w.log;
      m, o := Advance(m, op, EmptyTrash, {TrashRoot});
    }
    if o == Done {
      m, o := SyncRoot(m, op);
    }
  }

  /** Syncing the trash root makes an absent tombstone durable. This is all that
      sync_cleanup_retirement does. */
  method SyncRoot(m0: Machine, op: OpId) returns (m: Machine, o: Outcome)
    requires Inv(m0.w) && op in m0.w.db && TrashOf(Visible(m0.w), op) == EmptyTrash
    ensures Inv(m.w) && m.w.db == m0.w.db && RetireFrame(m0.w, m.w, op)
    ensures o == Done ==> forall e :: e in m.w.log ==> TrashOf(e.fs, op) == EmptyTrash
    ensures m0.faults == [] ==> o == Done && m.faults == []
  {
    FlushAgreesOnRoot(m0.w.log, op);
    m, o := Sync(m0, TrashRoot);
    if o == Done {
      forall e | e in m.w.log
        ensures TrashOf(e.fs, op) == EmptyTrash
      {
        assert RootView(TrashOf(e.fs, op)) == RootView(EmptyTrash);
      }
    }
  }

  /** finalize_cleanup_tombstone, or sync_cleanup_retirement when no tombstone is left. */
  method Destroy(m0: Machine, op: OpId) returns (m: Machine, o: Outcome)
    requires Inv(m0.w) && op in m0.w.db && m0.w.db[op].retiring
    ensures Inv(m.w) && m.w.db == m0.w.db && RetireFrame(m0.w, m.w, op)
    ensures o == Done ==> forall e :: e in m.w.log ==> TrashOf(e.fs, op) == EmptyTrash
    ensures m0.faults == [] ==> o == Done && m.faults == []
  {
    VisibleHolds(m0.w, op);
    m, o := m0, Done;
    if HasTombstone(TrashOf(Visible(m.w), op)) {
      if TrashOf(Visible(m.w), op).retired.None? {
        m, o := RetireMarker(m, op);
      }
      if o == Done {
        m, o := RemoveTombstone(m, op);
      }
    } else {
      m, o := SyncRoot(m, op);
    }
  }

  /** The retirement of one proved operation: record the intent, destroy, clear it. */
  method Retire(m0: Machine, op: OpId) returns (m: Machine, ok: bool)
    requires Inv(m0.w) && op in m0.w.db && Proved(m0.w.db[op]) && !m0.w.db[op].retired
    ensures Inv(m.w) && RetireFrame(m0.w, m.w, op)
    ensures m0.faults == [] ==> ok && m.faults == [] && m.w.db[op].retired
  {
    var o;
    RetirementIntentKeepsInv(m0.w, op);
    m, o := ChangeRow(m0, op, m0.w.db[op].(retiring := true));
    if o == Done {
      m, o := Destroy(m, op);
    }
    if o == Done {
      RetirementClearedKeepsInv(m.w, op);
      m, o := ChangeRow(m, op, m.w.db[op].(retiring := false, retired := true));
    }
    ok := o == Done;
  }

  /** Everything finalize_succeeded checks about one operation it found. */
  predicate RecordsAgree(op: OpId, o: Operation, t: Trash) {
    && |o.plan| == |o.items|
    && (t.retired.Some? ==> t.retired.value == o.plan && (t.dir.Some? ==> t.dir.value == OpDir(None, None)))
    && (t.retired.None? && t.dir.Some? ==> t.dir.value.marker == Some(o.plan))
    && (HasTombstone(t) || o.retiring)
    && (!Terminal(o.status) ==> !o.retiring)
    && (Terminal(o.status) ==> AllTerminal(o.items) && o.status == FinalStatus(o.items))
    && (Terminal(o.status) && o.proof.Recoverable? ==> !o.retiring)
    && (Proved(o) ==> o.proof.body == ExpectedBody(op, o))
  }

  /** What finalization relies on before it destroys anything: the tombstone carries the plan
      of the operation, and a proved operation has recorded the truth about every item. */
  lemma AgreedRecordsAreTrue(op: OpId, o: Operation, t: Trash)
    requires RecordsAgree(op, o, t)
    ensures t.retired.Some? ==> t.retired == Some(o.plan)
    ensures t.retired.None? && t.dir.Some? ==> t.dir.value.marker == Some(o.plan)
    ensures o.status == StPlanned || o.status == StRunning ==> !o.retiring
    ensures o.status == StCompleted || o.status == StCompletedWithFailures ==> TellsOutcome(o.status, o.items)
    ensures o.status != StPlanned && o.status != StRunning && o.proof.Succeeded? ==> TellsBody(op, o, o.proof.body)
  {
    if |o.plan| == |o.items| && AllTerminal(o.items) {
      ExpectedBodyTells(op, o);
    }
  }

  lemma RecordsAlwaysAgree(w: World, op: OpId)
    requires Inv(w) && op in w.db
    requires HasTombstone(TrashOf(Visible(w), op)) || w.db[op].retiring
    ensures RecordsAgree(op, w.db[op], TrashOf(Visible(w), op))
  {
    VisibleHolds(w, op);
  }

  /** What a pass over all operations may change: it only retires proved ones. */
  ghost predicate PassFrame(w0: World, w1: World) {
    && |w0.log| > 0 && |w1.log| > 0
    && w1.born == w0.born && w1.db.Keys == w0.db.Keys && Durable(w1).Keys <= Durable(w0).Keys
    && Visible(w1).canonical == Visible(w0).canonical
    && (WorldRefs(w0) ==> WorldRefs(w1))
    && (forall y :: y in w0.db ==> w1.db[y] == w0.db[y].(retiring := w1.db[y].retiring, retired := w1.db[y].retired))
    && (forall y :: y in w0.db && (w0.db[y].retired || !Proved(w0.db[y])) ==>
          w1.db[y] == w0.db[y] && TrashOf(Visible(w1), y) == TrashOf(Visible(w0), y))
  }

  /** What finalize_succeeded does about one operation it found. */
  method Visit(m0: Machine, op: OpId) returns (m: Machine, ok: bool)
    requires Inv(m0.w) && op in m0.w.db
    requires HasTombstone(TrashOf(Visible(m0.w), op)) || m0.w.db[op].retiring
    ensures Inv(m.w) && RetireFrame(m0.w, m.w, op)
    ensures !Proved(m0.w.db[op]) ==> m.w == m0.w
    ensures m0.faults == [] ==> ok && m.faults == [] && (Proved(m0.w.db[op]) ==> m.w.db[op].retired)
  {
    m, ok := m0, true;
    RecordsAlwaysAgree(m0.w, op);
    HeldIffUnretired(m0.w, op);
    if !RecordsAgree(op, m.w.db[op], TrashOf(Visible(m.w), op)) {
      ok := false;
    } else if Proved(m.w.db[op]) {
      m, ok := Retire(m, op);
    }
  }

  /** The loop invariant of the pass. */
  ghost predicate PassInv(m0: Machine, m: Machine, todo: set<OpId>, ok: bool) {
    && PassFrame(m0.w, m.w)
    && todo <= m0.w.db.Keys
    && (forall y :: y in todo ==>
          && m.w.db[y] == m0.w.db[y] && TrashOf(Visible(m.w), y) == TrashOf(Visible(m0.w), y)
          && (HasTombstone(TrashOf(Visible(m0.w), y)) || m0.w.db[y].retiring))
    && (m0.faults == [] ==>
          && ok && m.faults == []
          && forall y :: y in m.w.db && Proved(m.w.db[y]) && !m.w.db[y].retired ==> y in todo)
  }

  lemma PassInvStep(m0: Machine, m1: Machine, m: Machine, todo: set<OpId>, op: OpId, ok: bool)
    requires PassInv(m0, m1, todo, true) && op in todo && RetireFrame(m1.w, m.w, op)
    requires !Proved(m1.w.db[op]) ==> m.w == m1.w
    requires !m1.w.db[op].retired
    requires m1.faults == [] ==> ok && m.faults == [] && (Proved(m1.w.db[op]) ==> m.w.db[op].retired)
    ensures PassInv(m0, m, todo - {op}, ok)
  {
  }

  /** finalize_succeeded: visit every operation that left a tombstone or a pending
      retirement, in any order. No record is ever rejected, and an undisturbed pass
      retires every proved operation. */
  method FinalizeSucceeded(m0: Machine) returns (m: Machine, ok: bool)
    requires Inv(m0.w)
    ensures Inv(m.w) && PassFrame(m0.w, m.w)
    ensures m0.faults == [] ==> ok && m.faults == [] && forall op :: op in m.w.db && Proved(m.w.db[op]) ==> m.w.db[op].retired
  {
    m, ok := m0, true;
    var todo := FoundOperations(m0.w);
    FoundAreKnown(m0.w);
    while ok && todo != {}
      invariant Inv(m.w) && PassInv(m0, m, todo, ok)
      decreases ok, |todo|
    {
      var op :| op in todo;
      var m1 := m;
      HeldIffUnretired(m1.w, op);
      m, ok := Visit(m1, op);
      PassInvStep(m0, m1, m, todo, op, ok);
      todo := todo - {op};
    }
  }

  function FoundOperations(w: World): set<OpId>
    requires |w.log| > 0
  {
    (set op | op in Visible(w).trash && HasTombstone(Visible(w).trash[op]))
    + (set op | op in w.db && w.db[op].retiring)
  }

  /** Every unretired proved operation is found, and nothing unknown is. */
  lemma FoundAreKnown(w: World)
    requires Inv(w)
    ensures FoundOperations(w) <= w.db.Keys
    ensures forall y :: y in FoundOperations(w) ==> HasTombstone(TrashOf(Visible(w), y)) || w.db[y].retiring
    ensures forall y :: y in w.db && Proved(w.db[y]) && !w.db[y].retired ==> y in FoundOperations(w)
  {
    assert w.log[|w.log| - 1] in w.log;
    assert FsInv(w.db, Visible(w), w.born);
    forall y | y in w.db && Proved(w.db[y]) && !w.db[y].retired
      ensures y in FoundOperations(w)
    {
      HeldIffUnretired(w, y);
    }
  }

  /** finish_json or complete: record the response as the operation's proof. */
  method Finish(m0: Machine, op: OpId, body: Body) returns (m: Machine, ok: bool)
    requires Inv(m0.w) && op in m0.w.db && m0.w.db[op].proof.Recoverable?
    requires Terminal(m0.w.db[op].status) && |m0.w.db[op].plan| == |m0.w.db[op].items| && AllTerminal(m0.w.db[op].items)
    requires body == ExpectedBody(op, m0.w.db[op])
    ensures Inv(m.w) && m.w.log == m0.w.log && OnlyOp(m0.w, m.w, op)
    ensures m.w.db[op] == m0.w.db[op].(proof := m.w.db[op].proof)
    ensures m0.faults == [] ==> ok && m.faults == [] && m.w.db[op].proof == Succeeded(body)
  {
    var o;
    ProofKeepsInv(m0.w, op);
    m, o := ChangeRow(m0, op, m0.w.db[op].(proof := Succeeded(body)));
    ok := o == Done;
  }

  /** What a whole apply call, manual or automatic, may change. */
  ghost predicate ApplyFrame(w0: World, w1: World, op: OpId) {
    && |w0.log| > 0 && |w1.log| > 0 && op in w0.db
    && w1.born == w0.born && w1.db.Keys == w0.db.Keys && Durable(w1).Keys <= Durable(w0).Keys
    && OnlyPlannedLeft(w0, w1, w0.db[op].plan)
    && (forall y :: y in w0.db ==> Continues(w0.db[y], w1.db[y]))
  }

  /** An operation's later row: same plan, recorded items unchanged, proof and retirement final. */
  ghost predicate Continues(o0: Operation, o1: Operation) {
    && o1.plan == o0.plan
    && |o1.items| == |o0.items|
    && (forall i :: 0 <= i < |o0.items| && o0.items[i] != Planned ==> o1.items[i] == o0.items[i])
    && (o0.proof.Succeeded? ==> o1.proof == o0.proof)
    && (o0.retired ==> o1.retired)
  }

  /** The end of a run: nothing in the store moves any more. */
  ghost predicate EndFrame(w0: World, w1: World, op: OpId) {
    && |w0.log| > 0 && |w1.log| > 0 && op in w0.db
    && w1.born == w0.born && w1.db.Keys == w0.db.Keys && Durable(w1).Keys <= Durable(w0).Keys
    && Visible(w1).canonical == Visible(w0).canonical
    && (WorldRefs(w0) ==> WorldRefs(w1))
    && w1.db[op].items == w0.db[op].items
    && (forall y :: y in w0.db ==> Continues(w0.db[y], w1.db[y]))
  }

  lemma ProofThenPass(w0: World, w1: World, w2: World, op: OpId)
    requires |w0.log| > 0 && op in w0.db && w0.db[op].proof.Recoverable?
    requires w1.log == w0.log && OnlyOp(w0, w1, op) && w1.db[op] == w0.db[op].(proof := w1.db[op].proof)
    requires PassFrame(w1, w2) && forall y :: y in w1.db && w1.db[y].retired ==> w2.db[y].retired
    ensures EndFrame(w0, w2, op)
  {
  }

  /** Record the response, then retire every proved operation. */
  method RecordAndRetire(m0: Machine, op: OpId, body: Body) returns (m: Machine, ok: bool)
    requires Inv(m0.w) && op in m0.w.db && m0.w.db[op].proof.Recoverable?
    requires Terminal(m0.w.db[op].status) && |m0.w.db[op].plan| == |m0.w.db[op].items| && AllTerminal(m0.w.db[op].items)
    requires body == ExpectedBody(op, m0.w.db[op])
    ensures Inv(m.w) && EndFrame(m0.w, m.w, op)
    ensures m0.faults == [] ==> ok && m.w.db[op].retired
  {
    m, ok := Finish(m0, op, body);
    if ok {
      var m1 := m;
      m, ok := FinalizeSucceeded(m);
      ProofThenPass(m0.w, m1.w, m.w, op);
    }
  }

  lemma ApplyComposes(w0: World, w1: World, w2: World, op: OpId, eligible: Option<set<Artifact>>)
    requires ExecFrame(w0, w1, op) && OnlyEligibleLeft(w0, w1, eligible) && EndFrame(w1, w2, op)
    ensures ApplyFrame(w0, w2, op) && OnlyEligibleLeft(w0, w2, eligible)
  {
  }

  /** The body of `apply` and `artifacts` once a plan is published: execute, record the
      proof, retire. However it is interrupted, the invariant holds and the operation
      can be resumed; undisturbed, it ends retired with every item settled. */
  method Apply(m0: Machine, op: OpId, eligible: Option<set<Artifact>>) returns (m: Machine, ok: bool)
    requires Inv(m0.w) && op in m0.w.db && m0.w.db[op].proof.Recoverable?
    ensures Inv(m.w) && ApplyFrame(m0.w, m.w, op) && OnlyEligibleLeft(m0.w, m.w, eligible)
    ensures WorldRefs(m0.w) && Covered(m0.w.db[op], eligible, Visible(m0.w).canonical) ==> WorldRefs(m.w)
    ensures m0.faults == [] ==> ok && m.w.db[op].retired && Settled(m0.w, m.w, op, eligible, |m0.w.db[op].plan|)
  {
    var r;
    RowFacts(m0.w, op);
    m, r := ExecuteArtifacts(m0, op, eligible);
    ok := false;
    if r.Completed? {
      var m1 := m;
      RowFacts(m.w, op);
      m, ok := RecordAndRetire(m, op, r.body);
      ApplyComposes(m0.w, m1.w, m.w, op, eligible);
    }
  }
}
