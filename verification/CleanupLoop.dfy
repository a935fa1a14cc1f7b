/** The loop over a plan: what is decided about each item, and what the loop keeps. */
module CleanupLoop {
  import opened Artifacts
  import opened Faults
  import opened CleanupModel
  import opened CleanupSteps
  import opened CleanupReferences
  import opened CleanupEffects
  import opened CleanupDetach

  function NamedRevision(a: Artifact): set<(Uuid, Uuid)> {
    if a.Release? then {(a.app, a.revision)} else {}
  }

  /** The set that the loop keeps: the revisions of the releases that were retained so far. */
  ghost predicate FailedRevisions(o: Operation, i: nat, failed: set<(Uuid, Uuid)>)
    requires i <= |o.plan| == |o.items|
  {
    forall p :: p in failed <==>
      exists j :: 0 <= j < i && o.items[j].Failed? && p in NamedRevision(o.plan[j])
  }

  lemma FailedRevisionsStep(o: Operation, o': Operation, i: nat, failed: set<(Uuid, Uuid)>)
    requires i < |o.plan| == |o.items| && FailedRevisions(o, i, failed)
    requires o'.plan == o.plan && OnlyItem(o.items, o'.items, i)
    ensures FailedRevisions(o', i + 1, if o'.items[i].Failed? then failed + NamedRevision(o.plan[i]) else failed)
  {
    var failed' := if o'.items[i].Failed? then failed + NamedRevision(o.plan[i]) else failed;
    forall p
      ensures p in failed' <==> exists j :: 0 <= j < i + 1 && o'.items[j].Failed? && p in NamedRevision(o'.plan[j])
    {
      if p in failed {
        var j :| 0 <= j < i && o.items[j].Failed? && p in NamedRevision(o.plan[j]);
        assert o'.items[j].Failed? && p in NamedRevision(o'.plan[j]);
      }
      if j :| 0 <= j < i + 1 && o'.items[j].Failed? && p in NamedRevision(o'.plan[j]) {
        assert j < i ==> o.items[j].Failed? && p in NamedRevision(o.plan[j]);
      }
    }
  }

  /** A release that names item `i` was retained. */
  predicate Kept(plan: seq<Artifact>, items: seq<ItemStatus>, i: nat)
    requires i < |plan| == |items|
  {
    exists j :: 0 <= j < i && Names(plan[j], plan[i]) && items[j].Failed?
  }

  /** The loop's set decides exactly whether a release naming item `i` was retained. */
  lemma ClearedFromSet(o: Operation, i: nat, failed: set<(Uuid, Uuid)>)
    requires i < |o.plan| == |o.items| && FailedRevisions(o, i, failed)
    requires forall j :: 0 <= j < i ==> o.items[j] != Planned
    ensures o.plan[i].ConfigRevision? && (o.plan[i].app, o.plan[i].id) in failed <==> Kept(o.plan, o.items, i)
    ensures !Kept(o.plan, o.items, i) ==> Cleared(o, i)
  {
    if o.plan[i].ConfigRevision? && (o.plan[i].app, o.plan[i].id) in failed {
      var j :| 0 <= j < i && o.items[j].Failed? && (o.plan[i].app, o.plan[i].id) in NamedRevision(o.plan[j]);
      assert Names(o.plan[j], o.plan[i]);
    }
    if Kept(o.plan, o.items, i) {
      var j :| 0 <= j < i && Names(o.plan[j], o.plan[i]) && o.items[j].Failed?;
      assert (o.plan[i].app, o.plan[i].id) in NamedRevision(o.plan[j]);
    }
  }

  /** What an undisturbed turn decides about item `i`. */
  function Decide(plan: seq<Artifact>, items: seq<ItemStatus>, moved: bool, eligible: Option<set<Artifact>>, i: nat): ItemStatus
    requires i < |plan| == |items|
  {
    if items[i] != Planned then items[i]
    else if !IsEligible(eligible, plan[i]) && !moved then Failed(ItemProtected)
    else if Kept(plan, items, i) then Failed(ReleaseRetained)
    else Detached
  }

  /** An item that is no longer eligible is protected, unless it was already moved. */
  method CheckEligible(m0: Machine, op: OpId, i: nat, eligible: Option<set<Artifact>>) returns (m: Machine, ok: bool, isProtected: bool)
    requires Inv(m0.w) && op in m0.w.db && m0.w.db[op].status == StRunning
    requires i < |m0.w.db[op].plan| == |m0.w.db[op].items| && m0.w.db[op].items[i] == Planned
    ensures m.w == m0.w
    ensures ok ==> (isProtected <==> !IsEligible(eligible, m.w.db[op].plan[i]) && i !in PayloadKeys(TrashOf(Visible(m.w), op)))
    ensures ok && isProtected ==> m.w.db[op].plan[i] in Visible(m.w).canonical
    ensures m0.faults == [] ==> ok && m.faults == []
  {
    m, ok, isProtected := m0, true, false;
    if !IsEligible(eligible, m.w.db[op].plan[i]) {
      var o, detached;
      m, o, detached := IsDetached(m, op, i);
      ok, isProtected := o == Done, !detached;
    }
  }

  /** An unrecorded item that nothing protects: kept because of a release, or detached. */
  method KeepOrDetach(m0: Machine, op: OpId, i: nat, failed: set<(Uuid, Uuid)>) returns (m: Machine, ok: bool)
    requires Inv(m0.w) && op in m0.w.db && m0.w.db[op].status == StRunning
    requires i < |m0.w.db[op].plan| == |m0.w.db[op].items| && m0.w.db[op].items[i] == Planned
    requires forall j :: 0 <= j < i ==> m0.w.db[op].items[j] != Planned
    requires FailedRevisions(m0.w.db[op], i, failed)
    ensures Inv(m.w) && ItemStep(m0.w, m.w, op, i)
    ensures WorldRefs(m0.w) && CoveredItem(m0.w.db[op].plan, i, Visible(m0.w).canonical) ==> WorldRefs(m.w)
    ensures ok ==> m.w.db[op].items[i] != Planned
    ensures m0.faults == [] ==>
              && ok && m.faults == []
              && m.w.db[op].items[i] == if Kept(m0.w.db[op].plan, m0.w.db[op].items, i) then Failed(ReleaseRetained) else Detached
  {
    var a := m0.w.db[op].plan[i];
    PlannedItem(m0.w, op, i);
    ClearedFromSet(m0.w.db[op], i, failed);
    if a.ConfigRevision? && (a.app, a.id) in failed {
      m, ok := Retain(m0, op, i, ReleaseRetained);
    } else {
      m, ok := DetachOrRetain(m0, op, i);
    }
  }

  /** References stay if the item is eligible only while the releases naming it precede it. */
  ghost predicate SafeIfEligible(w: World, op: OpId, i: nat, eligible: Option<set<Artifact>>)
    requires |w.log| > 0 && op in w.db && i < |w.db[op].plan|
  {
    WorldRefs(w) && (IsEligible(eligible, w.db[op].plan[i]) ==> CoveredItem(w.db[op].plan, i, Visible(w).canonical))
  }

  /** An item that is protected or moved is covered anyway. */
  lemma SafeIsCovered(w: World, op: OpId, i: nat, eligible: Option<set<Artifact>>)
    requires Inv(w) && op in w.db && i < |w.db[op].plan| && SafeIfEligible(w, op, i, eligible)
    requires IsEligible(eligible, w.db[op].plan[i]) || w.db[op].plan[i] !in Visible(w).canonical
    ensures CoveredItem(w.db[op].plan, i, Visible(w).canonical)
  {
    if w.db[op].plan[i] !in Visible(w).canonical {
      MissingIsCovered(w, w.db[op].plan, i);
    }
  }

  /** One unrecorded item: protected, kept because of a release, or detached. */
  method ProcessPlanned(m0: Machine, op: OpId, i: nat, eligible: Option<set<Artifact>>, failed: set<(Uuid, Uuid)>)
    returns (m: Machine, ok: bool)
    requires Inv(m0.w) && op in m0.w.db && m0.w.db[op].status == StRunning
    requires i < |m0.w.db[op].plan| == |m0.w.db[op].items| && m0.w.db[op].items[i] == Planned
    requires forall j :: 0 <= j < i ==> m0.w.db[op].items[j] != Planned
    requires FailedRevisions(m0.w.db[op], i, failed)
    ensures Inv(m.w) && ItemStep(m0.w, m.w, op, i)
    ensures SafeIfEligible(m0.w, op, i, eligible) ==> WorldRefs(m.w)
    ensures OnlyEligibleLeft(m0.w, m.w, eligible)
    ensures ok ==> m.w.db[op].items[i] != Planned
    ensures m0.faults == [] ==> ok && m.faults == []
    ensures m0.faults == [] ==>
              m.w.db[op].items[i] == Decide(m0.w.db[op].plan, m0.w.db[op].items, i in PayloadKeys(TrashOf(Visible(m0.w), op)), eligible, i)
  {
    var isProtected;
    PlannedItem(m0.w, op, i);
    m, ok, isProtected := CheckEligible(m0, op, i, eligible);
    if ok && isProtected {
      m, ok := Retain(m, op, i, ItemProtected);
    } else if ok {
      if SafeIfEligible(m0.w, op, i, eligible) {
        SafeIsCovered(m0.w, op, i, eligible);
      }
      m, ok := KeepOrDetach(m, op, i, failed);
    }
    EligibleStep(m0.w, m.w, op, i, eligible);
  }

  /** Only an eligible item leaves the store in its turn. */
  lemma EligibleStep(w0: World, w1: World, op: OpId, i: nat, eligible: Option<set<Artifact>>)
    requires ItemStep(w0, w1, op, i)
    requires w0.db[op].plan[i] in Visible(w0).canonical && w0.db[op].plan[i] !in Visible(w1).canonical ==>
               IsEligible(eligible, w0.db[op].plan[i])
    ensures OnlyEligibleLeft(w0, w1, eligible)
  {
    forall a | a in Visible(w0).canonical && !IsEligible(eligible, a)
      ensures a in Visible(w1).canonical
    {
      assert a != w0.db[op].plan[i] ==> a !in [w0.db[op].plan[i]];
    }
  }

  /** The contract of one turn. */
  ghost predicate Turn(m0: Machine, m: Machine, op: OpId, i: nat, eligible: Option<set<Artifact>>, ok: bool, failed: set<(Uuid, Uuid)>) {
    && ItemStep(m0.w, m.w, op, i) && OnlyEligibleLeft(m0.w, m.w, eligible)
    && (WorldRefs(m0.w) && (m0.w.db[op].items[i] == Planned ==> SafeIfEligible(m0.w, op, i, eligible)) ==> WorldRefs(m.w))
    && (ok ==> m.w.db[op].items[i] != Planned && FailedRevisions(m.w.db[op], i + 1, failed))
    && (m0.faults == [] ==>
          && ok && m.faults == []
          && m.w.db[op].items[i] == Decide(m0.w.db[op].plan, m0.w.db[op].items, i in PayloadKeys(TrashOf(Visible(m0.w), op)), eligible, i))
  }

  /** One turn of the execution loop. */
  method ProcessItem(m0: Machine, op: OpId, i: nat, eligible: Option<set<Artifact>>, failed: set<(Uuid, Uuid)>)
    returns (m: Machine, ok: bool, failed': set<(Uuid, Uuid)>)
    requires Inv(m0.w) && op in m0.w.db && i < |m0.w.db[op].plan| == |m0.w.db[op].items|
    requires m0.w.db[op].items[i] == Planned ==> m0.w.db[op].status == StRunning
    requires forall j :: 0 <= j < i ==> m0.w.db[op].items[j] != Planned
    requires FailedRevisions(m0.w.db[op], i, failed)
    ensures Inv(m.w) && Turn(m0, m, op, i, eligible, ok, failed')
  {
    failed' := failed;
    var o;
    m, o := Read(m0);
    ok := o == Done;
    if ok && m.w.db[op].items[i] == Planned {
      m, ok := ProcessPlanned(m, op, i, eligible, failed);
    }
    if ok && m.w.db[op].items[i].Failed? {
      failed' := failed + NamedRevision(m.w.db[op].plan[i]);
    }
    if ok {
      FailedRevisionsStep(m0.w.db[op], m.w.db[op], i, failed);
    }
  }

  /** What the loop has done after handling the first `i` items. */
  ghost predicate LoopProgress(w0: World, w1: World, op: OpId, i: nat)
    requires ExecFrame(w0, w1, op)
  {
    && i <= |w0.db[op].plan|
    && (forall j :: 0 <= j < i ==> w1.db[op].items[j] != Planned)
    && (forall j :: i <= j < |w0.db[op].items| ==> w1.db[op].items[j] == w0.db[op].items[j])
    && (forall j :: j >= i ==> (j in PayloadKeys(TrashOf(Visible(w1), op)) <==> j in PayloadKeys(TrashOf(Visible(w0), op))))
  }

  lemma LoopStep(w0: World, w1: World, w2: World, op: OpId, i: nat)
    requires ExecFrame(w0, w1, op) && LoopProgress(w0, w1, op, i) && i < |w0.db[op].plan|
    requires ItemStep(w1, w2, op, i)
    ensures ExecFrame(w0, w2, op) && w2.db[op].status == w1.db[op].status
    ensures w2.db[op].items[i] != Planned ==> LoopProgress(w0, w2, op, i + 1)
  {
  }

  /** The item states that an undisturbed execution ends with. */
  function Settle(plan: seq<Artifact>, items: seq<ItemStatus>, moved: set<nat>, eligible: Option<set<Artifact>>, n: nat): (s: seq<ItemStatus>)
    requires n <= |plan| == |items|
    ensures |s| == |items|
    ensures forall i :: n <= i < |items| ==> s[i] == items[i]
  {
    if n == 0 then items
    else
      var s := Settle(plan, items, moved, eligible, n - 1);
      s[n - 1 := Decide(plan, s, n - 1 in moved, eligible, n - 1)]
  }

  ghost predicate Settled(w0: World, w1: World, op: OpId, eligible: Option<set<Artifact>>, n: nat)
    requires |w0.log| > 0 && op in w0.db && op in w1.db
  {
    && n <= |w0.db[op].plan| == |w0.db[op].items|
    && w1.db[op].items == Settle(w0.db[op].plan, w0.db[op].items, PayloadKeys(TrashOf(Visible(w0), op)), eligible, n)
  }

  lemma SettledStep(w0: World, w1: World, w2: World, op: OpId, eligible: Option<set<Artifact>>, i: nat)
    requires ExecFrame(w0, w1, op) && LoopProgress(w0, w1, op, i) && i < |w0.db[op].plan|
    requires Settled(w0, w1, op, eligible, i) && ItemStep(w1, w2, op, i)
    requires w2.db[op].items[i] == Decide(w1.db[op].plan, w1.db[op].items, i in PayloadKeys(TrashOf(Visible(w1), op)), eligible, i)
    ensures Settled(w0, w2, op, eligible, i + 1)
  {
    var s := w1.db[op].items;
    assert w2.db[op].items == s[i := w2.db[op].items[i]];
  }

  /** Every unrecorded item that may be detached is planned after the releases that name it. */
  ghost predicate Covered(o: Operation, eligible: Option<set<Artifact>>, canonical: map<Artifact, Inode>) {
    forall i :: 0 <= i < |o.plan| && i < |o.items| && o.items[i] == Planned && IsEligible(eligible, o.plan[i]) ==>
      CoveredItem(o.plan, i, canonical)
  }

  lemma CoveredShrinks(o: Operation, eligible: Option<set<Artifact>>, canonical: map<Artifact, Inode>, canonical': map<Artifact, Inode>, i: nat)
    requires Covered(o, eligible, canonical) && canonical'.Keys <= canonical.Keys
    requires i < |o.plan| == |o.items|
    ensures o.items[i] == Planned && IsEligible(eligible, o.plan[i]) ==> CoveredItem(o.plan, i, canonical')
  {
    if o.items[i] == Planned && IsEligible(eligible, o.plan[i]) {
      forall r | r in canonical' && Names(r, o.plan[i])
        ensures Precedes(o.plan, r, i)
      {
        assert r in canonical'.Keys;
      }
    }
  }

  lemma RowFacts(w: World, op: OpId)
    requires Inv(w) && op in w.db
    ensures |w.db[op].plan| == |w.db[op].items| <= MAX_CLEANUP_ITEMS
    ensures Terminal(w.db[op].status) ==> AllTerminal(w.db[op].items) && w.db[op].status == FinalStatus(w.db[op].items)
    ensures w.db[op].retiring ==> Terminal(w.db[op].status) && w.db[op].proof.Succeeded?
    ensures w.db[op].proof.Succeeded? ==> Terminal(w.db[op].status)
  {
    VisibleHolds(w, op);
  }

  /** The invariant of the loop over the plan. */
  ghost predicate LoopInv(m0: Machine, m: Machine, op: OpId, i: nat, eligible: Option<set<Artifact>>, ok: bool, failed: set<(Uuid, Uuid)>) {
    && ExecFrame(m0.w, m.w, op) && m.w.db[op].status == m0.w.db[op].status
    && i <= |m0.w.db[op].plan| && OnlyEligibleLeft(m0.w, m.w, eligible)
    && (ok ==> LoopProgress(m0.w, m.w, op, i) && FailedRevisions(m.w.db[op], i, failed))
    && (WorldRefs(m0.w) && Covered(m0.w.db[op], eligible, Visible(m0.w).canonical) ==> WorldRefs(m.w))
    && (m0.faults == [] ==> ok && m.faults == [] && Settled(m0.w, m.w, op, eligible, i))
  }

  lemma LoopInvStep(m0: Machine, m1: Machine, m: Machine, op: OpId, i: nat, eligible: Option<set<Artifact>>,
                    ok: bool, failed: set<(Uuid, Uuid)>, failed': set<(Uuid, Uuid)>)
    requires LoopInv(m0, m1, op, i, eligible, true, failed) && i < |m0.w.db[op].plan|
    requires Turn(m1, m, op, i, eligible, ok, failed')
    ensures LoopInv(m0, m, op, i + 1, eligible, ok, failed')
  {
    LoopStep(m0.w, m1.w, m.w, op, i);
    if Covered(m0.w.db[op], eligible, Visible(m0.w).canonical) {
      CoveredShrinks(m0.w.db[op], eligible, Visible(m0.w).canonical, Visible(m1.w).canonical, i);
    }
    if m0.faults == [] {
      SettledStep(m0.w, m1.w, m.w, op, eligible, i);
    }
  }

  lemma LoopInvEntry(m: Machine, op: OpId, eligible: Option<set<Artifact>>)
    requires Inv(m.w) && op in m.w.db
    ensures LoopInv(m, m, op, 0, eligible, true, {})
  {
    RowFacts(m.w, op);
  }

  /** What the loop's invariant means when all items were handled. */
  lemma LoopInvExit(m0: Machine, m: Machine, op: OpId, i: nat, eligible: Option<set<Artifact>>, ok: bool, failed: set<(Uuid, Uuid)>)
    requires LoopInv(m0, m, op, i, eligible, ok, failed) && (ok ==> i == |m0.w.db[op].plan|)
    ensures ok ==> AllTerminal(m.w.db[op].items)
    ensures m0.faults == [] ==> ok && m.faults == [] && Settled(m0.w, m.w, op, eligible, |m0.w.db[op].plan|)
  {
  }

  /** Everything a turn may assume. */
  lemma LoopInvTurn(m0: Machine, m: Machine, op: OpId, i: nat, eligible: Option<set<Artifact>>, failed: set<(Uuid, Uuid)>)
    requires Inv(m.w) && LoopInv(m0, m, op, i, eligible, true, failed) && i < |m0.w.db[op].plan| && m0.w.db[op].status != StPlanned
    ensures op in m.w.db && i < |m.w.db[op].plan| == |m.w.db[op].items|
    ensures m.w.db[op].items[i] == Planned ==> m.w.db[op].status == StRunning
    ensures (forall j :: 0 <= j < i ==> m.w.db[op].items[j] != Planned) && FailedRevisions(m.w.db[op], i, failed)
  {
    RowFacts(m.w, op);
  }

  /** One turn, seen from the loop. */
  method TakeTurn(m0: Machine, m1: Machine, op: OpId, i: nat, eligible: Option<set<Artifact>>, failed1: set<(Uuid, Uuid)>)
    returns (m: Machine, ok: bool, failed: set<(Uuid, Uuid)>)
    requires Inv(m1.w) && LoopInv(m0, m1, op, i, eligible, true, failed1) && i < |m0.w.db[op].plan| && m0.w.db[op].status != StPlanned
    ensures Inv(m.w) && LoopInv(m0, m, op, i + 1, eligible, ok, failed)
  {
    LoopInvTurn(m0, m1, op, i, eligible, failed1);
    m, ok, failed := ProcessItem(m1, op, i, eligible, failed1);
    LoopInvStep(m0, m1, m, op, i, eligible, ok, failed1, failed);
  }

  /** The loop over the plan. */
  method ProcessItems(m0: Machine, op: OpId, eligible: Option<set<Artifact>>) returns (m: Machine, ok: bool)
    requires Inv(m0.w) && op in m0.w.db && m0.w.db[op].status != StPlanned
    ensures Inv(m.w) && ExecFrame(m0.w, m.w, op) && m.w.db[op].status == m0.w.db[op].status
    ensures ok ==> AllTerminal(m.w.db[op].items)
    ensures OnlyEligibleLeft(m0.w, m.w, eligible)
    ensures WorldRefs(m0.w) && Covered(m0.w.db[op], eligible, Visible(m0.w).canonical) ==> WorldRefs(m.w)
    ensures m0.faults == [] ==> ok && m.faults == [] && Settled(m0.w, m.w, op, eligible, |m0.w.db[op].plan|)
  {
    LoopInvEntry(m0, op, eligible);
    m, ok := m0, true;
    var i := 0;
    var failed: set<(Uuid, Uuid)> := {};
    while ok && i < |m.w.db[op].plan|
      invariant Inv(m.w) && LoopInv(m0, m, op, i, eligible, ok, failed)
      decreases ok, |m0.w.db[op].plan| - i
    {
      m, ok, failed := TakeTurn(m0, m, op, i, eligible, failed);
      i := i + 1;
    }
    LoopInvExit(m0, m, op, i, eligible, ok, failed);
  }
}
