/** Why cleanup never gets stuck: at most one operation has an item in motion, so some
    unfinished operation can always be resumed. */
module CleanupProgress {
  import opened Artifacts
  import opened Faults
  import opened CleanupModel
  import opened CleanupSteps
  import opened CleanupEffects
  import opened CleanupLoop
  import opened CleanupRetirement
  import opened CleanupTheorems
  import opened CleanupPlanning
  import P = Protection
  import Planner
  import PlannerStability

  // ---------- Operations in motion ----------

  /** Operation `op` has moved an item and has not recorded it. */
  predicate IsMoving(w: World, op: OpId)
    requires |w.log| > 0
  {
    op in w.db && exists i :: 0 <= i < |w.db[op].plan| && IsMovingItem(w, op, i)
  }

  predicate IsMovingItem(w: World, op: OpId, i: nat)
    requires |w.log| > 0 && op in w.db && i < |w.db[op].plan|
  {
    i < |w.db[op].items| && w.db[op].items[i] == Planned && w.db[op].plan[i] !in Visible(w).canonical
  }

  /** No operation but the resumed one is in motion. */
  predicate NoneMovingBut(w: World, resuming: Option<OpId>)
    requires |w.log| > 0
  {
    forall op :: op in w.db && IsMoving(w, op) ==> resuming == Some(op)
  }

  ghost predicate OneMoving(w: World)
    requires |w.log| > 0
  {
    forall x, y :: IsMoving(w, x) && IsMoving(w, y) ==> x == y
  }

  /** An open item is in motion or in its place. */
  lemma OpenItemIsSomewhere(w: World, op: OpId, i: nat)
    requires Inv(w) && op in w.db && !w.db[op].retired
    requires i < |w.db[op].plan| && IsOpen(w.db[op], w.db[op].plan[i])
    ensures IsMovingItem(w, op, i) || w.db[op].plan[i] in Visible(w).canonical
  {
    var o, t, store := w.db[op], TrashOf(Visible(w), op), Visible(w).canonical;
    VisibleHolds(w, op);
    if !o.retiring {
      if FullTombstone(o, t, store, w.born) {
        assert ItemOk(o, i, t.dir.value.payload.value, store, w.born);
      } else {
        assert ItemOk(o, i, map[], store, w.born);
      }
    }
  }

  lemma MovingIsUnfinished(w: World, op: OpId)
    requires Inv(w) && IsMoving(w, op)
    ensures !w.db[op].retired && w.db[op].proof.Recoverable?
  {
    RowFacts(w, op);
    VisibleHolds(w, op);
  }

  /** What the planner needs to find is in its place exactly if nothing else moves. */
  lemma InPlaceIffStill(w: World, resuming: Option<OpId>)
    requires Inv(w)
    ensures OthersInPlace(w, resuming) <==> NoneMovingBut(w, resuming)
  {
    if OthersInPlace(w, resuming) {
      forall op | op in w.db && IsMoving(w, op)
        ensures resuming == Some(op)
      {
        MovingIsUnfinished(w, op);
        var i :| 0 <= i < |w.db[op].plan| && IsMovingItem(w, op, i);
        assert IsOpen(w.db[op], w.db[op].plan[i]);
      }
    }
    if NoneMovingBut(w, resuming) {
      forall op, i | op in w.db && !w.db[op].retired && resuming != Some(op) && 0 <= i < |w.db[op].plan| && IsOpen(w.db[op], w.db[op].plan[i])
        ensures w.db[op].plan[i] in Visible(w).canonical
      {
        OpenItemIsSomewhere(w, op, i);
      }
    }
  }

  // ---------- What every step keeps ----------

  /** A run puts only its own operation in motion, if no other one was. */
  lemma RunMovesOne(w0: World, w1: World, op: OpId)
    requires Inv(w0) && Inv(w1) && ApplyFrame(w0, w1, op) && !w0.db[op].retired
    requires NoneMovingBut(w0, Some(op))
    ensures NoneMovingBut(w1, Some(op))
  {
    forall y | y in w1.db && IsMoving(w1, y)
      ensures y == op
    {
      if y != op {
        MovingIsUnfinished(w1, y);
        var i :| 0 <= i < |w1.db[y].plan| && IsMovingItem(w1, y, i);
        assert Continues(w0.db[y], w1.db[y]);
        StaysUnlessMoved(w0, w1, op, y, i);
        assert IsMovingItem(w0, y, i);
        assert IsMoving(w0, y);
      }
    }
  }

  /** An item that another operation reserves does not leave the store. */
  lemma StaysUnlessMoved(w0: World, w1: World, op: OpId, y: OpId, i: nat)
    requires Inv(w0) && ApplyFrame(w0, w1, op) && !w0.db[op].retired && y in w0.db && y != op && !w0.db[y].retired
    requires i < |w0.db[y].plan| && i < |w0.db[y].items| && w0.db[y].items[i] == Planned
    ensures w0.db[y].plan[i] in Visible(w0).canonical ==> w0.db[y].plan[i] in Visible(w1).canonical
  {
    var a := w0.db[y].plan[i];
    assert IsOpen(w0.db[y], a);
    if a in Visible(w0).canonical && a in w0.db[op].plan {
      var j :| 0 <= j < |w0.db[op].plan| && w0.db[op].plan[j] == a;
      VisibleHolds(w0, op);
      PlannedIsBorn(op, w0.db[op], TrashOf(Visible(w0), op), Visible(w0).canonical, w0.born, j);
      assert false;
    }
  }

  /** Artifacts that come back, and rows that keep their items, put nothing in motion. */
  lemma NothingStartsMoving(w0: World, w1: World)
    requires |w0.log| > 0 && |w1.log| > 0 && OneMoving(w0)
    requires w1.db.Keys == w0.db.Keys && Visible(w0).canonical.Keys <= Visible(w1).canonical.Keys
    requires forall y :: y in w0.db ==> w1.db[y].plan == w0.db[y].plan && w1.db[y].items == w0.db[y].items
    ensures OneMoving(w1)
  {
    forall y | IsMoving(w1, y)
      ensures IsMoving(w0, y)
    {
      var i :| 0 <= i < |w1.db[y].plan| && IsMovingItem(w1, y, i);
      assert w1.db[y].plan[i] !in Visible(w0).canonical.Keys;
      assert IsMovingItem(w0, y, i);
    }
  }

  /** A new operation is published only when nothing is in motion. */
  lemma PublishMovesNothing(w: World, op: OpId, plan: seq<Artifact>)
    requires Inv(w) && op !in w.db && Admissible(w, plan)
    ensures NoneMovingBut(Published(w, op, plan), None)
  {
    var w' := Published(w, op, plan);
    assert OthersInPlace(w, None);
    InPlaceIffStill(w, None);
    forall y | y in w'.db && IsMoving(w', y)
      ensures IsMoving(w, y)
    {
      var i :| 0 <= i < |w'.db[y].plan| && IsMovingItem(w', y, i);
      if y != op {
        assert IsMovingItem(w, y, i);
        assert IsMoving(w, y);
      }
    }
  }

  // ---------- When an operation can be resumed ----------

  /** The records are consistent, and whatever they protect is in the store. */
  ghost predicate RulesHold(inv: P.Inventory, records: P.Records) {
    Planner.Plannable(inv, records.(reserved := {}))
  }

  ghost predicate CanResume(w: World, inv: P.Inventory, records: P.Records, op: OpId) {
    op in w.db && w.db[op].proof.Recoverable? && Planner.Plannable(inv, RecordsNow(w, records, Some(op)))
  }

  /** What is reserved and in its place is in the inventory. */
  lemma InPlaceIsPresent(w: World, inv: P.Inventory, records: P.Records, resuming: Option<OpId>)
    requires |w.log| > 0 && Lists(w, inv) && OthersInPlace(w, resuming) && RulesHold(inv, records)
    ensures Planner.Plannable(inv, RecordsNow(w, records, resuming))
  {
    var rec, free := RecordsNow(w, records, resuming), records.(reserved := {});
    PlannerStability.SameRecords(inv, free, rec);
    forall a | a in rec.reserved
      ensures Planner.InInventory(inv, a)
    {
      var op :| op in w.db && !w.db[op].retired && resuming != Some(op) && IsOpen(w.db[op], a);
      var i :| 0 <= i < |w.db[op].plan| && w.db[op].plan[i] == a;
    }
    forall k | Planner.ReleaseProtected(inv, rec, k)
      ensures k in P.ValidReleases(inv)
    {
      if !Planner.ReservedRelease(rec, k) {
        assert Planner.ReleaseProtected(inv, free, k);
      }
    }
    forall k | Planner.RevisionProtected(inv, rec, k)
      ensures k in inv.revisions
    {
      if Planner.RevisionArtifact(k) !in rec.reserved {
        assert Planner.RevisionProtected(inv, free, k);
      }
    }
  }

  lemma PlannableNeedsRules(inv: P.Inventory, rec: P.Records)
    requires Planner.Plannable(inv, rec)
    ensures RulesHold(inv, rec)
  {
    var free := rec.(reserved := {});
    PlannerStability.SameRecords(inv, rec, free);
    forall k | Planner.ReleaseProtected(inv, free, k)
      ensures k in P.ValidReleases(inv)
    {
      assert Planner.ReleaseProtected(inv, rec, k);
    }
    forall k | Planner.RevisionProtected(inv, free, k)
      ensures k in inv.revisions
    {
      assert Planner.RevisionProtected(inv, rec, k);
    }
  }

  /** Exactly when an unfinished operation can be resumed: the rules hold, and no other
      operation is in motion. */
  lemma CanResumeIff(w: World, inv: P.Inventory, records: P.Records, op: OpId)
    requires Inv(w) && Lists(w, inv) && UniqueReleases(w) && op in w.db && w.db[op].proof.Recoverable?
    ensures CanResume(w, inv, records, op) <==> RulesHold(inv, records) && NoneMovingBut(w, Some(op))
  {
    InPlaceIffStill(w, Some(op));
    if CanResume(w, inv, records, op) {
      ReservedIsInPlace(w, inv, records, Some(op));
      PlannableNeedsRules(inv, RecordsNow(w, records, Some(op)));
      assert RecordsNow(w, records, Some(op)).(reserved := {}) == records.(reserved := {});
    }
    if RulesHold(inv, records) && NoneMovingBut(w, Some(op)) {
      InPlaceIsPresent(w, inv, records, Some(op));
    }
  }

  /** If the rules hold and anything is unfinished, something can be resumed. */
  lemma SomeCanResume(w: World, inv: P.Inventory, records: P.Records, unfinished: OpId) returns (op: OpId)
    requires Inv(w) && Lists(w, inv) && UniqueReleases(w) && OneMoving(w) && RulesHold(inv, records)
    requires unfinished in w.db && w.db[unfinished].proof.Recoverable?
    ensures CanResume(w, inv, records, op) && NoneMovingBut(w, Some(op))
  {
    op := unfinished;
    if y :| IsMoving(w, y) {
      op := y;
      MovingIsUnfinished(w, y);
    }
    CanResumeIff(w, inv, records, op);
  }
}
