/** Publishing the tombstone of an operation, and detaching one item into it. */
module CleanupDetach {
  import opened Artifacts
  import opened Faults
  import opened CleanupModel
  import opened CleanupSteps
  import opened CleanupReferences
  import opened CleanupEffects

  // ---------- Preparing the tombstone ----------

  /** prepare_cleanup_tombstone: publish the signed marker, or check the one that is there. */
  method Prepare(m0: Machine, op: OpId) returns (m: Machine, o: Outcome)
    requires Inv(m0.w) && op in m0.w.db && m0.w.db[op].proof.Recoverable?
    ensures Inv(m.w) && m.w.db == m0.w.db && OnlyOp(m0.w, m.w, op)
    ensures Visible(m.w).canonical == Visible(m0.w).canonical
    ensures PayloadKeys(TrashOf(Visible(m.w), op)) == PayloadKeys(TrashOf(Visible(m0.w), op))
    ensures WorldRefs(m0.w) ==> WorldRefs(m.w)
    ensures o == Done ==> forall e :: e in m.w.log ==> TrashOf(e.fs, op).dir.Some?
    ensures m0.faults == [] ==> o == Done && m.faults == []
  {
    m, o := Read(m0);
    if o == Done {
      if TrashOf(Visible(m.w), op).dir.Some? {
        m, o := CheckMarker(m, op);
      } else {
        m, o := PublishMarker(m, op);
        if o == Error && TrashOf(Visible(m.w), op).preparing {
          // Best effort: the outcome of this removal is ignored.
          var ignored;
          m, ignored := ChangeTrash(m, op, EmptyTrash, {TrashRoot});
        }
      }
    }
  }

  /** A marker left by an earlier run must be exact, and its barriers are repeated. */
  method CheckMarker(m0: Machine, op: OpId) returns (m: Machine, o: Outcome)
    requires Inv(m0.w) && op in m0.w.db && m0.w.db[op].proof.Recoverable?
    requires TrashOf(Visible(m0.w), op).dir.Some?
    ensures Inv(m.w) && m.w.db == m0.w.db && m.w.born == m0.w.born
    ensures Visible(m.w) == Visible(m0.w) && Durable(m.w).Keys <= Durable(m0.w).Keys
    ensures WorldRefs(m0.w) ==> WorldRefs(m.w)
    ensures o == Done ==> forall e :: e in m.w.log ==> IsDurable(TrashOf(Visible(m.w), op), TrashOf(e.fs, op))
    ensures m0.faults == [] ==> o == Done && m.faults == []
  {
    VisibleHolds(m0.w, op);
    m := m0;
    o := if TrashOf(Visible(m.w), op).dir.value.marker == Some(m.w.db[op].plan) then Done else Error;
    if o == Done {
      FlushAgreesOnPayload(m.w.log, op);
      m, o := Sync(m, PayloadDir(op));
    }
    if o == Done {
      FlushAgreesOnDirectory(m.w.log, op);
      FlushKeepsLog(m.w.log, OperationDir(op));
      m, o := Sync(m, OperationDir(op));
    }
    if o == Done {
      FlushAgreesOnRoot(m.w.log, op);
      FlushKeepsLog(m.w.log, TrashRoot);
      m, o := Sync(m, TrashRoot);
    }
  }

  /** What was visible of a tombstone in all its directories is there. */
  ghost predicate IsDurable(visible: Trash, t: Trash) {
    RootView(t) == RootView(visible) && DirectoryView(t) == DirectoryView(visible) && PayloadKeys(t) == PayloadKeys(visible)
  }

  /** Before its marker is published an operation has moved nothing, so any stage of
      the preparation is consistent. */
  lemma PreparationStages(w: World, op: OpId)
    requires Inv(w) && op in w.db && w.db[op].proof.Recoverable? && TrashOf(Visible(w), op).dir.None?
    ensures OpInv(op, w.db[op], EmptyTrash, Visible(w).canonical, w.born)
    ensures OpInv(op, w.db[op], Trash(true, None, None), Visible(w).canonical, w.born)
    ensures OpInv(op, w.db[op], NewTombstone(w.db[op].plan), Visible(w).canonical, w.born)
    ensures TrashOf(Visible(w), op).retired.None?
  {
    VisibleHolds(w, op);
  }

  function NewTombstone(plan: seq<Artifact>): Trash {
    Trash(false, Some(OpDir(Some(plan), Some(map[]))), None)
  }

  /** Remove what an earlier, unfinished preparation left behind. */
  method ClearPreparation(m0: Machine, op: OpId) returns (m: Machine, o: Outcome)
    requires Inv(m0.w) && op in m0.w.db && m0.w.db[op].proof.Recoverable?
    requires TrashOf(Visible(m0.w), op).dir.None?
    ensures Inv(m.w) && m.w.db == m0.w.db && OnlyOp(m0.w, m.w, op)
    ensures Visible(m.w).canonical == Visible(m0.w).canonical && TrashOf(Visible(m.w), op).dir.None?
    ensures o == Done && TrashOf(Visible(m0.w), op).preparing ==> forall e :: e in m.w.log ==> !TrashOf(e.fs, op).preparing
    ensures WorldRefs(m0.w) ==> WorldRefs(m.w)
    ensures m0.faults == [] ==> o == Done && m.faults == []
  {
    PreparationStages(m0.w, op);
    m, o := m0, Done;
    if TrashOf(Visible(m.w), op).preparing {
      m, o := ChangeTrash(m, op, EmptyTrash, {TrashRoot});
      if o == Done {
        FlushAgreesOnRoot(m.w.log, op);
        m, o := Sync(m, TrashRoot);
      }
    }
  }

  method PublishMarker(m0: Machine, op: OpId) returns (m: Machine, o: Outcome)
    requires Inv(m0.w) && op in m0.w.db && m0.w.db[op].proof.Recoverable?
    requires TrashOf(Visible(m0.w), op).dir.None?
    ensures Inv(m.w) && m.w.db == m0.w.db && OnlyOp(m0.w, m.w, op)
    ensures Visible(m.w).canonical == Visible(m0.w).canonical
    ensures PayloadKeys(TrashOf(Visible(m.w), op)) == {}
    ensures TrashOf(Visible(m.w), op).preparing ==>
              TrashOf(Visible(m.w), op).dir.None? && OpInv(op, m.w.db[op], EmptyTrash, Visible(m.w).canonical, m.w.born)
    ensures WorldRefs(m0.w) ==> WorldRefs(m.w)
    ensures o == Done ==> forall e :: e in m.w.log ==> TrashOf(e.fs, op).dir.Some?
    ensures m0.faults == [] ==> o == Done && m.faults == []
  {
    PreparationStages(m0.w, op);
    m, o := ClearPreparation(m0, op);
    if o == Done {
      m, o := ChangeTrash(m, op, Trash(true, None, None), {TrashRoot});
    }
    if o == Done {
      m, o := ChangeTrash(m, op, NewTombstone(m.w.db[op].plan), {TrashRoot, OperationDir(op)});
    }
    if o == Done {
      FlushAgreesOnRoot(m.w.log, op);
      m, o := Sync(m, TrashRoot);
    }
  }

  // ---------- Detaching one item ----------

  datatype DetachResult = NowDetached | AlreadyDetached | ConfirmedMissing | ConfirmedRetained | Conflict | DetachFailed

  /** sync_cleanup_rename: both barriers, source directory first. Afterwards no
      power loss can bring the artifact back. */
  method SyncRename(m0: Machine, op: OpId, i: nat) returns (m: Machine, o: Outcome)
    requires Inv(m0.w) && op in m0.w.db && i < |m0.w.db[op].plan|
    requires m0.w.db[op].plan[i] !in Visible(m0.w).canonical
    ensures Inv(m.w) && m.w.db == m0.w.db && m.w.born == m0.w.born
    ensures Visible(m.w) == Visible(m0.w) && Durable(m.w).Keys <= Durable(m0.w).Keys
    ensures WorldRefs(m0.w) ==> WorldRefs(m.w)
    ensures o == Done ==> forall e :: e in m.w.log ==> m.w.db[op].plan[i] !in e.fs.canonical
    ensures o == Done ==> forall e :: e in m.w.log ==> PayloadKeys(TrashOf(e.fs, op)) == PayloadKeys(TrashOf(Visible(m.w), op))
    ensures m0.faults == [] ==> o == Done && m.faults == []
  {
    var a := m0.w.db[op].plan[i];
    FlushAgreesOnArtifact(m0.w.log, a);
    m, o := Sync(m0, Parent(a));
    if o == Done {
      FlushAgreesOnPayload(m.w.log, op);
      FlushKeepsLog(m.w.log, PayloadDir(op));
      m, o := Sync(m, PayloadDir(op));
    }
  }

  /** In a running operation a planned item is either in the store or already moved. */
  lemma PlannedItem(w: World, op: OpId, i: nat)
    requires Inv(w) && op in w.db && i < |w.db[op].plan| == |w.db[op].items|
    requires w.db[op].items[i] == Planned && w.db[op].status == StRunning
    ensures i in PayloadKeys(TrashOf(Visible(w), op)) <==> w.db[op].plan[i] !in Visible(w).canonical
    ensures w.db[op].plan[i] !in Visible(w).canonical ==> Cleared(w.db[op], i)
  {
    VisibleHolds(w, op);
    assert ItemOk(w.db[op], i, TrashOf(Visible(w), op).dir.value.payload.value, Visible(w).canonical, w.born);
  }

  /** The rename of an item that is in its place, and a second look if it is reported to
      have failed: the item is then in exactly one place. */
  method MoveItem(m0: Machine, op: OpId, i: nat) returns (m: Machine, r: DetachResult)
    requires Inv(m0.w) && CanMove(m0.w, op, i) && m0.w.db[op].status == StRunning
    ensures Inv(m.w) && m.w.db == m0.w.db && ItemStep(m0.w, m.w, op, i)
    ensures WorldRefs(m0.w) && CoveredItem(m0.w.db[op].plan, i, Visible(m0.w).canonical) ==> WorldRefs(m.w)
    ensures r.NowDetached? || r.ConfirmedRetained? || r.DetachFailed?
    ensures r.NowDetached? ==> forall e :: e in m.w.log ==> m.w.db[op].plan[i] !in e.fs.canonical
    ensures r.ConfirmedRetained? ==> m.w.db[op].plan[i] in Visible(m.w).canonical
    ensures m0.faults == [] ==> r.NowDetached? && m.faults == []
  {
    var o;
    m, o := Rename(m0, op, i);
    PlannedItem(m.w, op, i);
    var source := m.w.db[op].plan[i] in Visible(m.w).canonical;
    var destination := i in PayloadKeys(TrashOf(Visible(m.w), op));
    if o == Crash {
      r := DetachFailed;
    } else if o == Error && source && !destination {
      r := ConfirmedRetained;
    } else if o == Error && source == destination {
      r := Conflict;
    } else {
      m, o := SyncRename(m, op, i);
      r := if o == Done then NowDetached else DetachFailed;
    }
  }

  /** detach_cleanup_artifact. A planned artifact is never missing, a reported
      rename error is resolved by looking again, and success is reported only
      when the move is durable. */
  method Detach(m0: Machine, op: OpId, i: nat) returns (m: Machine, r: DetachResult)
    requires Inv(m0.w) && op in m0.w.db && m0.w.db[op].status == StRunning
    requires i < |m0.w.db[op].plan| == |m0.w.db[op].items|
    requires m0.w.db[op].items[i] == Planned && Cleared(m0.w.db[op], i)
    ensures Inv(m.w) && m.w.db == m0.w.db && ItemStep(m0.w, m.w, op, i)
    ensures WorldRefs(m0.w) && CoveredItem(m0.w.db[op].plan, i, Visible(m0.w).canonical) ==> WorldRefs(m.w)
    ensures r != ConfirmedMissing && r != Conflict
    ensures r.NowDetached? || r.AlreadyDetached? ==> forall e :: e in m.w.log ==> m.w.db[op].plan[i] !in e.fs.canonical
    ensures r.ConfirmedRetained? ==> m.w.db[op].plan[i] in Visible(m.w).canonical
    ensures m0.faults == [] ==> (r.NowDetached? || r.AlreadyDetached?) && m.faults == []
  {
    VisibleHolds(m0.w, op);
    assert ItemOk(m0.w.db[op], i, TrashOf(Visible(m0.w), op).dir.value.payload.value, Visible(m0.w).canonical, m0.w.born);
    var o;
    m, o := Read(m0);
    if o != Done { return m, DetachFailed; }
    var a := m.w.db[op].plan[i];
    var source := a in Visible(m.w).canonical;
    var destination := i in TrashOf(Visible(m.w), op).dir.value.payload.value;
    if !source && destination {
      m, o := SyncRename(m, op, i);
      r := if o == Done then AlreadyDetached else DetachFailed;
    } else if !source {
      r := ConfirmedMissing;
    } else if destination {
      r := DetachFailed;
    } else {
      m, r := MoveItem(m, op, i);
    }
  }

  /** cleanup_artifact_is_detached */
  method IsDetached(m0: Machine, op: OpId, i: nat) returns (m: Machine, o: Outcome, detached: bool)
    requires Inv(m0.w) && op in m0.w.db && m0.w.db[op].status == StRunning
    requires i < |m0.w.db[op].plan| == |m0.w.db[op].items| && m0.w.db[op].items[i] == Planned
    ensures m.w == m0.w
    ensures o == Done ==> detached == (i in PayloadKeys(TrashOf(Visible(m.w), op)))
    ensures o == Done ==> detached == (m.w.db[op].plan[i] !in Visible(m.w).canonical)
    ensures m0.faults == [] ==> o == Done && m.faults == []
  {
    VisibleHolds(m0.w, op);
    assert ItemOk(m0.w.db[op], i, TrashOf(Visible(m0.w), op).dir.value.payload.value, Visible(m0.w).canonical, m0.w.born);
    m, o := Read(m0);
    var source := m.w.db[op].plan[i] in Visible(m.w).canonical;
    detached := i in TrashOf(Visible(m.w), op).dir.value.payload.value;
    if source == detached {
      o := if o == Crash then Crash else Error;
    }
  }

  /** record_detached and record_item_failure: one transaction that changes a
      planned item and nothing else. */
  method Record(m0: Machine, op: OpId, i: nat, s: ItemStatus) returns (m: Machine, o: Outcome)
    requires Inv(m0.w) && op in m0.w.db && m0.w.db[op].status == StRunning
    requires i < |m0.w.db[op].plan| == |m0.w.db[op].items| && m0.w.db[op].items[i] == Planned && s != Planned
    requires forall e :: e in m0.w.log ==> (s == Detached <==> m0.w.db[op].plan[i] !in e.fs.canonical)
    ensures Inv(m.w) && m.w.log == m0.w.log && ItemStep(m0.w, m.w, op, i)
    ensures o == Done ==> m.w.db[op].items == m0.w.db[op].items[i := s]
    ensures m0.faults == [] ==> o == Done && m.faults == []
  {
    RecordKeepsInv(m0.w, op, i, s);
    m, o := ChangeRow(m0, op, m0.w.db[op].(items := m0.w.db[op].items[i := s]));
  }

  /** Detach item `i` and record it, or find that it was retained. */
  method DetachAndRecord(m0: Machine, op: OpId, i: nat) returns (m: Machine, ok: bool, retained: bool)
    requires Inv(m0.w) && op in m0.w.db && m0.w.db[op].status == StRunning
    requires i < |m0.w.db[op].plan| == |m0.w.db[op].items|
    requires m0.w.db[op].items[i] == Planned && Cleared(m0.w.db[op], i)
    ensures Inv(m.w) && ItemStep(m0.w, m.w, op, i)
    ensures WorldRefs(m0.w) && CoveredItem(m0.w.db[op].plan, i, Visible(m0.w).canonical) ==> WorldRefs(m.w)
    ensures ok && !retained ==> m.w.db[op].items[i] == Detached
    ensures ok && retained ==> m.w.db == m0.w.db && m.w.db[op].plan[i] in Visible(m.w).canonical
    ensures m0.faults == [] ==> ok && !retained && m.faults == []
  {
    var r;
    m, r := Detach(m0, op, i);
    retained := r.ConfirmedRetained? || r.Conflict?;
    ok := retained;
    if r.NowDetached? || r.AlreadyDetached? {
      var o;
      m, o := Record(m, op, i, Detached);
      ok := o == Done;
    }
  }

  /** Record that item `i` stays in the store. */
  method Retain(m0: Machine, op: OpId, i: nat, code: FailureCode) returns (m: Machine, ok: bool)
    requires Inv(m0.w) && op in m0.w.db && m0.w.db[op].status == StRunning
    requires i < |m0.w.db[op].plan| == |m0.w.db[op].items| && m0.w.db[op].items[i] == Planned
    requires m0.w.db[op].plan[i] in Visible(m0.w).canonical
    ensures Inv(m.w) && m.w.log == m0.w.log && ItemStep(m0.w, m.w, op, i)
    ensures ok ==> m.w.db[op].items[i] == Failed(code)
    ensures m0.faults == [] ==> ok && m.faults == []
  {
    VisibleIsEverywhere(m0.w, m0.w.db[op].plan[i]);
    var o;
    m, o := Record(m0, op, i, Failed(code));
    ok := o == Done;
  }

  /** Detach item `i`, or record that it could not be moved. */
  method DetachOrRetain(m0: Machine, op: OpId, i: nat) returns (m: Machine, ok: bool)
    requires Inv(m0.w) && op in m0.w.db && m0.w.db[op].status == StRunning
    requires i < |m0.w.db[op].plan| == |m0.w.db[op].items|
    requires m0.w.db[op].items[i] == Planned && Cleared(m0.w.db[op], i)
    ensures Inv(m.w) && ItemStep(m0.w, m.w, op, i)
    ensures WorldRefs(m0.w) && CoveredItem(m0.w.db[op].plan, i, Visible(m0.w).canonical) ==> WorldRefs(m.w)
    ensures ok ==> m.w.db[op].items[i] == Detached || m.w.db[op].items[i] == Failed(ItemRetained)
    ensures m0.faults == [] ==> ok && m.faults == [] && m.w.db[op].items[i] == Detached
  {
    var retained;
    m, ok, retained := DetachAndRecord(m0, op, i);
    if ok && retained {
      m, ok := Retain(m, op, i, ItemRetained);
    }
  }
}
