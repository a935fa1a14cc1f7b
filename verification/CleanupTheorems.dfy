/** What the invariant means, and what whole histories of calls, faults and power
    losses keep. */
module CleanupTheorems {
  import opened Artifacts
  import opened Faults
  import opened CleanupModel
  import opened CleanupSteps
  import opened CleanupReferences
  import opened CleanupEffects
  import opened CleanupLoop
  import opened CleanupExecution
  import opened CleanupRetirement

  // ---------- Reading the invariant in any state a power loss can leave ----------

  /** Conservation: until its operation is finished and proved, a planned artifact is in
      exactly one of its place in the store and its place in the payload, unchanged. */
  lemma Conservation(w: World, e: Entry, op: OpId, i: nat)
    requires Inv(w) && e in w.log && op in w.db && i < |w.db[op].plan| && !Proved(w.db[op])
    ensures i < |w.db[op].items|
    ensures var o, t := w.db[op], TrashOf(e.fs, op);
            var moved := i in PayloadKeys(t);
            && moved != (o.plan[i] in e.fs.canonical)
            && o.plan[i] in w.born
            && (moved ==> t.dir.value.payload.value[i] == w.born[o.plan[i]])
            && (!moved ==> e.fs.canonical[o.plan[i]] == w.born[o.plan[i]])
            && (o.items[i].Detached? ==> moved)
            && (o.items[i].Failed? ==> !moved)
            && (o.items[i].Planned? && moved ==> forall j :: 0 <= j < i ==> o.items[j] != Planned)
  {
    EntryHolds(w, e, op);
    assert FsInv(w.db, e.fs, w.born);
    var o, t := w.db[op], TrashOf(e.fs, op);
    if t.dir.Some? {
      assert ItemOk(o, i, t.dir.value.payload.value, e.fs.canonical, w.born);
    } else {
      assert ItemOk(o, i, map[], e.fs.canonical, w.born);
    }
  }

  /** A payload that is gone was destroyed under a proof that equals the ledger. */
  lemma DestructionNeedsProof(w: World, e: Entry, op: OpId, i: nat)
    requires Inv(w) && e in w.log && op in w.db
    requires i < |w.db[op].plan| == |w.db[op].items|
    requires w.db[op].items[i] == Detached && i !in PayloadKeys(TrashOf(e.fs, op))
    ensures Terminal(w.db[op].status) && AllTerminal(w.db[op].items)
    ensures w.db[op].proof == Succeeded(ExpectedBody(op, w.db[op])) && TellsBody(op, w.db[op], w.db[op].proof.body)
    ensures w.db[op].retiring || w.db[op].retired
  {
    EntryHolds(w, e, op);
    var o, t := w.db[op], TrashOf(e.fs, op);
    assert FullTombstone(o, t, e.fs.canonical, w.born) ==>
        ItemOk(o, i, t.dir.value.payload.value, e.fs.canonical, w.born);
    ExpectedBodyTells(op, o);
  }

  /** An operation that has moved anything and is not retired is still identified by its
      marker, by its retired marker or by its recorded retirement intent. */
  lemma StillIdentified(w: World, e: Entry, op: OpId)
    requires Inv(w) && e in w.log && op in w.db && !w.db[op].retired
    requires w.db[op].status != StPlanned || HasTombstone(TrashOf(e.fs, op))
    ensures var o, t := w.db[op], TrashOf(e.fs, op);
            || o.retiring
            || t.retired == Some(o.plan)
            || (t.dir.Some? && t.dir.value.marker == Some(o.plan))
  {
    EntryHolds(w, e, op);
  }

  /** A retired operation has left nothing behind. */
  lemma RetiredLeavesNothing(w: World, e: Entry, op: OpId)
    requires Inv(w) && e in w.log && op in w.db && w.db[op].retired
    ensures TrashOf(e.fs, op) == EmptyTrash && !w.db[op].retiring
    ensures var o := w.db[op];
            Proved(o) && |o.plan| == |o.items| && AllTerminal(o.items) && o.proof.body == ExpectedBody(op, o) && TellsBody(op, o, o.proof.body)
  {
    EntryHolds(w, e, op);
    ExpectedBodyTells(op, w.db[op]);
  }

  // ---------- When a resumed execution keeps every reference ----------

  /** Releases are planned before revisions, as the planner always does. */
  ghost predicate ReleasesFirst(plan: seq<Artifact>) {
    forall i, j :: 0 <= i < j < |plan| && plan[i].ConfigRevision? ==> !plan[j].Release?
  }

  /** A release planned before `i` that will be retained: it is already recorded as
      failed, or it is still in the store and no longer eligible. */
  ghost predicate WillBeKept(o: Operation, moved: set<nat>, eligible: Option<set<Artifact>>, j: nat)
    requires j < |o.plan| == |o.items|
  {
    o.items[j].Failed? || (o.items[j] == Planned && !IsEligible(eligible, o.plan[j]) && j !in moved)
  }

  ghost predicate NoneWillBeKept(o: Operation, moved: set<nat>, eligible: Option<set<Artifact>>, i: nat)
    requires i < |o.plan| == |o.items|
  {
    forall j :: 0 <= j < i && Names(o.plan[j], o.plan[i]) ==> !WillBeKept(o, moved, eligible, j)
  }

  /** The condition, checkable before the call: every revision that is about to be
      detached is named only by releases of this same plan. */
  ghost predicate SafeToResume(o: Operation, moved: set<nat>, eligible: Option<set<Artifact>>, canonical: map<Artifact, Inode>)
    requires |o.plan| == |o.items|
  {
    forall i, r ::
      (&& 0 <= i < |o.plan| && o.items[i] == Planned
       && o.plan[i] in canonical && IsEligible(eligible, o.plan[i]) && NoneWillBeKept(o, moved, eligible, i)
       && r in canonical && Names(r, o.plan[i]))
      ==> r in o.plan[..i]
  }

  /** What an undisturbed run decides about a release needs no look at other items. */
  lemma {:induction false} SettledItem(o: Operation, moved: set<nat>, eligible: Option<set<Artifact>>, n: nat, i: nat)
    requires i < n <= |o.plan| == |o.items|
    ensures Settle(o.plan, o.items, moved, eligible, n)[i] == Settle(o.plan, o.items, moved, eligible, i + 1)[i]
    ensures Settle(o.plan, o.items, moved, eligible, n)[i] == Decide(o.plan, Settle(o.plan, o.items, moved, eligible, i), i in moved, eligible, i)
    decreases n
  {
    if i + 1 < n {
      SettledItem(o, moved, eligible, n - 1, i);
    }
  }

  lemma {:induction false} SettledPrefix(o: Operation, moved: set<nat>, eligible: Option<set<Artifact>>, n: nat, i: nat)
    requires i <= n <= |o.plan| == |o.items|
    ensures forall j :: 0 <= j < i ==> Settle(o.plan, o.items, moved, eligible, n)[j] == Settle(o.plan, o.items, moved, eligible, i)[j]
    decreases n
  {
    if i < n {
      SettledPrefix(o, moved, eligible, n - 1, i);
    }
  }

  /** A release ends retained exactly when it was going to be. */
  lemma ReleaseOutcome(o: Operation, moved: set<nat>, eligible: Option<set<Artifact>>, j: nat)
    requires j < |o.plan| == |o.items| && o.plan[j].Release?
    ensures Settle(o.plan, o.items, moved, eligible, |o.plan|)[j].Failed? <==> WillBeKept(o, moved, eligible, j)
    ensures Settle(o.plan, o.items, moved, eligible, |o.plan|)[j] != Planned
  {
    SettledItem(o, moved, eligible, |o.plan|, j);
  }

  /** An unmoved revision leaves the store exactly when it is eligible and none of the
      plan's releases that name it is retained. */
  lemma RevisionOutcome(o: Operation, moved: set<nat>, eligible: Option<set<Artifact>>, i: nat)
    requires i < |o.plan| == |o.items| && o.items[i] == Planned && i !in moved
    ensures Settle(o.plan, o.items, moved, eligible, |o.plan|)[i] == Detached
            <==> IsEligible(eligible, o.plan[i]) && NoneWillBeKept(o, moved, eligible, i)
  {
    var n := |o.plan|;
    var s := Settle(o.plan, o.items, moved, eligible, i);
    SettledItem(o, moved, eligible, n, i);
    SettledPrefix(o, moved, eligible, n, i);
    forall j | 0 <= j < i && Names(o.plan[j], o.plan[i])
      ensures s[j].Failed? <==> WillBeKept(o, moved, eligible, j)
    {
      ReleaseOutcome(o, moved, eligible, j);
    }
  }

  /** A plan of which nothing is recorded and everything is eligible is detached completely. */
  lemma {:induction false} EverythingGoes(plan: seq<Artifact>, items: seq<ItemStatus>, moved: set<nat>, eligible: Option<set<Artifact>>, n: nat)
    requires n <= |plan| == |items|
    requires forall i :: 0 <= i < |plan| ==> items[i] == Planned && IsEligible(eligible, plan[i])
    ensures forall i :: 0 <= i < n ==> Settle(plan, items, moved, eligible, n)[i] == Detached
  {
    if n > 0 {
      EverythingGoes(plan, items, moved, eligible, n - 1);
    }
  }

  /** The store after an undisturbed execution: exactly the detached items left it. */
  lemma StoreAfter(w0: World, w1: World, op: OpId, eligible: Option<set<Artifact>>, a: Artifact)
    requires Inv(w0) && Inv(w1) && op in w0.db && w0.db[op].proof.Recoverable?
    requires ExecFrame(w0, w1, op) && Settled(w0, w1, op, eligible, |w0.db[op].plan|)
    requires a in Visible(w0).canonical
    ensures a !in Visible(w1).canonical <==>
            exists i :: 0 <= i < |w0.db[op].plan| && w0.db[op].plan[i] == a && w1.db[op].items[i] == Detached
  {
    RowFacts(w1, op);
    forall i | 0 <= i < |w0.db[op].plan|
      ensures w0.db[op].plan[i] in Visible(w1).canonical <==> w1.db[op].items[i] != Detached
    {
      SettledItem(w0.db[op], PayloadKeys(TrashOf(Visible(w0), op)), eligible, |w0.db[op].plan|, i);
      RecordedItem(w1, op, i);
    }
  }

  /** A recorded item is in the store exactly if it was not detached. */
  lemma RecordedItem(w: World, op: OpId, i: nat)
    requires Inv(w) && op in w.db && w.db[op].proof.Recoverable?
    requires i < |w.db[op].plan| == |w.db[op].items| && w.db[op].items[i] != Planned
    ensures w.db[op].plan[i] in Visible(w).canonical <==> w.db[op].items[i] != Detached
  {
    var o, t := w.db[op], TrashOf(Visible(w), op);
    VisibleHolds(w, op);
    assert ItemOk(o, i, t.dir.value.payload.value, Visible(w).canonical, w.born);
  }

  /** An item that is still planned and in the store has not been moved. */
  lemma UnmovedItem(w: World, op: OpId, i: nat)
    requires Inv(w) && op in w.db && w.db[op].proof.Recoverable?
    requires i < |w.db[op].plan| && w.db[op].plan[i] in Visible(w).canonical
    ensures |w.db[op].plan| == |w.db[op].items| && w.db[op].items[i] != Detached
    ensures i !in PayloadKeys(TrashOf(Visible(w), op))
  {
    VisibleHolds(w, op);
    var o, t := w.db[op], TrashOf(Visible(w), op);
    if t.dir.Some? {
      assert ItemOk(o, i, t.dir.value.payload.value, Visible(w).canonical, w.born);
    }
  }

  /** The condition is enough: a release that keeps its place keeps its revision. */
  lemma SafeKeepsReference(w0: World, w1: World, op: OpId, eligible: Option<set<Artifact>>, r: Artifact, v: Artifact)
    requires Inv(w0) && Inv(w1) && op in w0.db && w0.db[op].proof.Recoverable?
    requires ExecFrame(w0, w1, op) && Settled(w0, w1, op, eligible, |w0.db[op].plan|)
    requires Refs(Visible(w0).canonical) && r in Visible(w1).canonical && Names(r, v)
    requires SafeToResume(w0.db[op], PayloadKeys(TrashOf(Visible(w0), op)), eligible, Visible(w0).canonical)
    ensures v in Visible(w1).canonical
  {
    var o, moved, store := w0.db[op], PayloadKeys(TrashOf(Visible(w0), op)), Visible(w0).canonical;
    assert r in store.Keys;
    assert v in store;
    StoreAfter(w0, w1, op, eligible, v);
    if v !in Visible(w1).canonical {
      var i :| 0 <= i < |o.plan| && o.plan[i] == v && w1.db[op].items[i] == Detached;
      UnmovedItem(w0, op, i);
      assert o.items[i] == Planned;
      RevisionOutcome(o, moved, eligible, i);
      assert r in o.plan[..i];
      var j :| 0 <= j < i && o.plan[j] == r;
      ReleaseOutcome(o, moved, eligible, j);
      StoreAfter(w0, w1, op, eligible, r);
      assert false;
    }
  }

  /** The condition is needed: a release outside the plan loses its revision. */
  lemma UnsafeLosesReference(w0: World, w1: World, op: OpId, eligible: Option<set<Artifact>>, i: nat, r: Artifact)
    requires Inv(w0) && Inv(w1) && op in w0.db && w0.db[op].proof.Recoverable?
    requires ExecFrame(w0, w1, op) && Settled(w0, w1, op, eligible, |w0.db[op].plan|)
    requires ReleasesFirst(w0.db[op].plan)
    requires i < |w0.db[op].plan| && w0.db[op].plan[i] in Visible(w0).canonical
    requires w0.db[op].items[i] == Planned && IsEligible(eligible, w0.db[op].plan[i])
    requires NoneWillBeKept(w0.db[op], PayloadKeys(TrashOf(Visible(w0), op)), eligible, i)
    requires r in Visible(w0).canonical && Names(r, w0.db[op].plan[i]) && r !in w0.db[op].plan[..i]
    ensures r in Visible(w1).canonical && w0.db[op].plan[i] !in Visible(w1).canonical
  {
    var o := w0.db[op];
    UnmovedItem(w0, op, i);
    RevisionOutcome(o, PayloadKeys(TrashOf(Visible(w0), op)), eligible, i);
    StoreAfter(w0, w1, op, eligible, o.plan[i]);
    StoreAfter(w0, w1, op, eligible, r);
    forall j | 0 <= j < |o.plan|
      ensures o.plan[j] != r
    {
      assert j < i ==> o.plan[j] in o.plan[..i];
    }
  }

  /** Exactly when an undisturbed execution, new or resumed, keeps every reference of
      the store: if and only if no release outside its plan names a revision that it is
      about to detach. */
  method ExecuteUndisturbed(w0: World, op: OpId, eligible: Option<set<Artifact>>) returns (w1: World, r: ExecResult)
    requires Inv(w0) && op in w0.db && w0.db[op].proof.Recoverable?
    requires |w0.db[op].plan| == |w0.db[op].items|
    requires ReleasesFirst(w0.db[op].plan) && Refs(Visible(w0).canonical)
    ensures Inv(w1) && ExecFrame(w0, w1, op) && r.Completed?
    ensures Refs(Visible(w1).canonical) <==>
            SafeToResume(w0.db[op], PayloadKeys(TrashOf(Visible(w0), op)), eligible, Visible(w0).canonical)
  {
    var m;
    m, r := ExecuteArtifacts(Machine(w0, []), op, eligible);
    w1 := m.w;
    ReferencesIff(w0, w1, op, eligible);
  }

  lemma ReferencesIff(w0: World, w1: World, op: OpId, eligible: Option<set<Artifact>>)
    requires Inv(w0) && Inv(w1) && op in w0.db && w0.db[op].proof.Recoverable?
    requires ExecFrame(w0, w1, op) && Settled(w0, w1, op, eligible, |w0.db[op].plan|)
    requires ReleasesFirst(w0.db[op].plan) && Refs(Visible(w0).canonical)
    ensures Refs(Visible(w1).canonical) <==>
            SafeToResume(w0.db[op], PayloadKeys(TrashOf(Visible(w0), op)), eligible, Visible(w0).canonical)
  {
    var o, moved, store := w0.db[op], PayloadKeys(TrashOf(Visible(w0), op)), Visible(w0).canonical;
    if SafeToResume(o, moved, eligible, store) {
      forall r, v | r in Visible(w1).canonical && Names(r, v)
        ensures v in Visible(w1).canonical
      {
        SafeKeepsReference(w0, w1, op, eligible, r, v);
      }
    } else {
      var i, r :| 0 <= i < |o.plan| && o.items[i] == Planned && o.plan[i] in store && IsEligible(eligible, o.plan[i])
        && NoneWillBeKept(o, moved, eligible, i) && r in store && Names(r, o.plan[i]) && r !in o.plan[..i];
      UnsafeLosesReference(w0, w1, op, eligible, i, r);
    }
  }

  const OldRevision := ConfigRevision(0, 7)
  const LateRelease := Release(0, 1, 7)

  function StoreWithOldRevision(): World {
    World(map[], [Entry({}, Fs(map[OldRevision := 10], map[]))], map[OldRevision := 10])
  }

  // ---------- Whole histories ----------

  /** Everything that can happen, in any order: artifacts are published, plans are
      published, applied or resumed under any schedule of faults, proved operations
      are retired, and the power fails. */
  datatype Call =
    | Create(a: Artifact, inode: Inode)
    | Publish(op: OpId, plan: seq<Artifact>)
    | Run(op: OpId, eligible: Option<set<Artifact>>, faults: seq<Fault>)
    | Finalize(faults: seq<Fault>)
    | PowerLoss(kept: nat)

  /** A release is published only with its revision in the store and not reserved; a
      revision is planned only after the releases that name it. */
  ghost predicate SafeCall(w: World, c: Call) {
    |w.log| > 0 &&
    match c
    case Create(a, _) =>
      a.Release? ==>
        && ConfigRevision(a.app, a.revision) in Visible(w).canonical
        && forall op :: op in w.db && !w.db[op].retired ==> !IsOpen(w.db[op], ConfigRevision(a.app, a.revision))
    case Publish(_, plan) => forall i :: 0 <= i < |plan| ==> CoveredItem(plan, i, Visible(w).canonical)
    case Run(_, _, _) => true
    case Finalize(_) => true
    case PowerLoss(_) => true
  }

  /** Every reference holds, and no unfinished plan can ever break one. */
  ghost predicate GoodRefs(w: World) {
    && |w.log| > 0 && WorldRefs(w)
    && forall op :: op in w.db && !w.db[op].retired ==> Covered(w.db[op], None, Durable(w))
  }

  /** What the past promises the future. */
  ghost predicate History(w0: World, w1: World) {
    && (forall a :: a in w0.born ==> a in w1.born && w1.born[a] == w0.born[a])
    && (forall op :: op in w0.db ==> op in w1.db && Continues(w0.db[op], w1.db[op]))
  }

  /** When nothing reserved is in motion, the disk agrees with what the process sees. */
  lemma NothingPending(w: World)
    requires Inv(w) && ReservedInPlace(w)
    ensures Durable(w).Keys == Visible(w).canonical.Keys
  {
    LogShrinks(w.log);
    forall a | a in Durable(w)
      ensures a in Visible(w).canonical
    {
      assert w.log[|w.log| - 1] in w.log && w.log[0] in w.log;
      assert FsInv(w.db, w.log[0].fs, w.born) && FsInv(w.db, Visible(w), w.born);
      assert Accounted(w.db, Visible(w), a);
      if a !in Visible(w).canonical {
        var op :| op in w.db && Takes(w.db[op], TrashOf(Visible(w), op), a);
        var i :| 0 <= i < |w.db[op].plan| && i < |w.db[op].items| && w.db[op].plan[i] == a
                 && (w.db[op].items[i] == Detached || i in PayloadKeys(TrashOf(Visible(w), op)));
        EntryHolds(w, w.log[0], op);
        VisibleHolds(w, op);
        PlannedIsBorn(op, w.db[op], TrashOf(w.log[0].fs, op), Durable(w), w.born, i);
        assert IsOpen(w.db[op], w.db[op].plan[i]);
        assert false;
      }
    }
    assert forall a :: a in Visible(w).canonical.Keys ==> a in Durable(w).Keys;
  }

  /** Less on the disk and further along: the coverage of every plan remains. */
  lemma GoodRefsShrink(w0: World, w1: World)
    requires Inv(w0) && GoodRefs(w0) && |w1.log| > 0 && WorldRefs(w1)
    requires w1.db.Keys == w0.db.Keys && History(w0, w1) && Durable(w1).Keys <= Durable(w0).Keys
    ensures GoodRefs(w1)
  {
  }

  lemma CreateKeepsGoodRefs(w: World, a: Artifact, inode: Inode)
    requires Inv(w) && GoodRefs(w) && SafeCall(w, Create(a, inode))
    ensures GoodRefs(Created(w, a, inode))
  {
    var w' := Created(w, a, inode);
    assert w.log[|w.log| - 1] in w.log;
    assert Refs(Visible(w).canonical);
    LogShrinks(w.log);
    forall op, i | op in w'.db && !w'.db[op].retired && 0 <= i < |w'.db[op].plan| && i < |w'.db[op].items| && w'.db[op].items[i] == Planned
      ensures CoveredItem(w'.db[op].plan, i, Durable(w'))
    {
      assert Covered(w.db[op], None, Durable(w));
      assert IsOpen(w.db[op], w.db[op].plan[i]);
      forall r | r in Durable(w') && Names(r, w.db[op].plan[i])
        ensures Precedes(w.db[op].plan, r, i)
      {
        assert r != a;
        assert r in Visible(w).canonical.Keys;
      }
    }
  }

  lemma PublishKeepsGoodRefs(w: World, op: OpId, plan: seq<Artifact>)
    requires Inv(w) && GoodRefs(w) && op !in w.db && Admissible(w, plan) && SafeCall(w, Publish(op, plan))
    ensures GoodRefs(Published(w, op, plan))
  {
    var w' := Published(w, op, plan);
    NothingPending(w);
    forall i | 0 <= i < |plan|
      ensures CoveredItem(plan, i, Durable(w'))
    {
      assert CoveredItem(plan, i, Visible(w).canonical);
      forall r | r in Durable(w') && Names(r, plan[i])
        ensures Precedes(plan, r, i)
      {
        assert r in Visible(w).canonical.Keys;
      }
    }
  }

  lemma PowerLossKeepsGoodRefs(w: World, k: nat)
    requires Inv(w) && GoodRefs(w) && k < |w.log|
    ensures GoodRefs(AfterPowerLoss(w, k))
  {
    var w' := AfterPowerLoss(w, k);
    assert w.log[k] in w.log;
    LogShrinks(w.log);
    GoodRefsShrink(w, w');
  }

  /** Coverage of the disk covers what is visible, whatever is still eligible. */
  lemma CoveredNow(w: World, op: OpId, eligible: Option<set<Artifact>>)
    requires Inv(w) && GoodRefs(w) && op in w.db && !w.db[op].retired
    ensures Covered(w.db[op], eligible, Visible(w).canonical)
  {
    var o := w.db[op];
    RowFacts(w, op);
    LogShrinks(w.log);
    assert w.log[|w.log| - 1] in w.log;
    forall i | 0 <= i < |o.plan| && o.items[i] == Planned
      ensures CoveredItem(o.plan, i, Visible(w).canonical)
    {
      CoveredShrinks(o, None, Durable(w), Visible(w).canonical, i);
    }
  }

  /** What each call does. A call whose conditions do not hold is refused and changes
      nothing; a run takes only planned and eligible artifacts, and undisturbed it settles
      every item and retires the operation. */
  ghost predicate Performed(w0: World, c: Call, w1: World)
    requires |w0.log| > 0
  {
    match c
    case Create(a, inode) => w1 == if a in w0.born then w0 else Created(w0, a, inode)
    case Publish(op, plan) => w1 == if op in w0.db || !Admissible(w0, plan) then w0 else Published(w0, op, plan)
    case Run(op, eligible, faults) =>
      if op !in w0.db || !w0.db[op].proof.Recoverable? then w1 == w0
      else
        && ApplyFrame(w0, w1, op) && OnlyEligibleLeft(w0, w1, eligible)
        && (faults == [] ==> w1.db[op].retired && Settled(w0, w1, op, eligible, |w0.db[op].plan|))
    case Finalize(faults) =>
      PassFrame(w0, w1) && (faults == [] ==> forall op :: op in w1.db && Proved(w1.db[op]) ==> w1.db[op].retired)
    case PowerLoss(k) => w1 == if k < |w0.log| then w0.(log := [w0.log[k]]) else w0
  }

  /** One call, under any faults. */
  method Perform(w0: World, c: Call) returns (w1: World)
    requires Inv(w0)
    ensures Inv(w1) && History(w0, w1) && Performed(w0, c, w1)
    ensures GoodRefs(w0) && SafeCall(w0, c) ==> GoodRefs(w1)
  {
    w1 := w0;
    match c
    case Create(a, inode) =>
      if a !in w0.born {
        CreateKeepsInv(w0, a, inode);
        if GoodRefs(w0) && SafeCall(w0, c) { CreateKeepsGoodRefs(w0, a, inode); }
        w1 := Created(w0, a, inode);
      }
    case Publish(op, plan) =>
      if op !in w0.db && Admissible(w0, plan) {
        PublishKeepsInv(w0, op, plan);
        if GoodRefs(w0) && SafeCall(w0, c) { PublishKeepsGoodRefs(w0, op, plan); }
        w1 := Published(w0, op, plan);
      }
    case Run(op, eligible, faults) =>
      if op in w0.db && w0.db[op].proof.Recoverable? {
        w1 := PerformRun(w0, op, eligible, faults);
      }
    case Finalize(faults) =>
      w1 := PerformFinalize(w0, faults);
    case PowerLoss(k) =>
      if k < |w0.log| {
        PowerLossKeepsInv(w0, k);
        if GoodRefs(w0) { PowerLossKeepsGoodRefs(w0, k); }
        w1 := AfterPowerLoss(w0, k);
      }
  }

  /** One run of a published operation, new or resumed. */
  method PerformRun(w0: World, op: OpId, eligible: Option<set<Artifact>>, faults: seq<Fault>) returns (w1: World)
    requires Inv(w0) && op in w0.db && w0.db[op].proof.Recoverable?
    ensures Inv(w1) && History(w0, w1) && ApplyFrame(w0, w1, op) && OnlyEligibleLeft(w0, w1, eligible)
    ensures faults == [] ==> w1.db[op].retired && Settled(w0, w1, op, eligible, |w0.db[op].plan|)
    ensures GoodRefs(w0) ==> GoodRefs(w1)
  {
    VisibleHolds(w0, op);
    var m, ok := Apply(Machine(w0, faults), op, eligible);
    w1 := m.w;
    if GoodRefs(w0) {
      CoveredNow(w0, op, eligible);
      GoodRefsShrink(w0, w1);
    }
  }

  method PerformFinalize(w0: World, faults: seq<Fault>) returns (w1: World)
    requires Inv(w0)
    ensures Inv(w1) && History(w0, w1) && PassFrame(w0, w1)
    ensures faults == [] ==> forall op :: op in w1.db && Proved(w1.db[op]) ==> w1.db[op].retired
    ensures GoodRefs(w0) ==> GoodRefs(w1)
  {
    var m, ok := FinalizeSucceeded(Machine(w0, faults));
    w1 := m.w;
    if GoodRefs(w0) {
      GoodRefsShrink(w0, w1);
    }
  }

  /** Every world satisfies the invariant and continues the ones before. */
  ghost predicate GoodTrace(trace: seq<World>) {
    && (forall i :: 0 <= i < |trace| ==> Inv(trace[i]))
    && (forall i, j :: 0 <= i <= j < |trace| ==> History(trace[i], trace[j]))
  }

  /** Each of the first `n` calls led from one world to the next. */
  ghost predicate FollowsCalls(trace: seq<World>, calls: seq<Call>, n: nat)
    requires n < |trace| && n <= |calls|
  {
    forall i :: 0 <= i < n ==> |trace[i].log| > 0 && Performed(trace[i], calls[i], trace[i + 1])
  }

  /** If the references were good and the first `n` calls safe, they are good everywhere. */
  ghost predicate GoodIfSafe(trace: seq<World>, calls: seq<Call>, n: nat)
    requires 0 < |trace| && n <= |trace| && n <= |calls|
  {
    GoodRefs(trace[0]) && (forall i :: 0 <= i < n ==> SafeCall(trace[i], calls[i])) ==> forall i :: 0 <= i < |trace| ==> GoodRefs(trace[i])
  }

  lemma GoodTraceGrows(trace: seq<World>, w: World)
    requires |trace| > 0 && GoodTrace(trace) && Inv(w) && History(trace[|trace| - 1], w)
    ensures GoodTrace(trace + [w])
  {
    forall i, j | 0 <= i <= j < |trace + [w]|
      ensures History((trace + [w])[i], (trace + [w])[j])
    {
      if i < j == |trace| {
        HistoryComposes(trace[i], trace[|trace| - 1], w);
      }
    }
  }

  lemma CallsGrow(trace: seq<World>, w: World, calls: seq<Call>, n: nat)
    requires n < |calls| && |trace| == n + 1 && FollowsCalls(trace, calls, n)
    requires |trace[n].log| > 0 && Performed(trace[n], calls[n], w)
    ensures FollowsCalls(trace + [w], calls, n + 1)
  {
    var next := trace + [w];
    forall i | 0 <= i < n + 1
      ensures |next[i].log| > 0 && Performed(next[i], calls[i], next[i + 1])
    {
      assert next[i] == trace[i] && next[i + 1] == if i == n then w else trace[i + 1];
    }
  }

  lemma GoodGrows(trace: seq<World>, w: World, calls: seq<Call>, n: nat)
    requires n < |calls| && |trace| == n + 1 && GoodIfSafe(trace, calls, n)
    requires GoodRefs(trace[n]) && SafeCall(trace[n], calls[n]) ==> GoodRefs(w)
    ensures GoodIfSafe(trace + [w], calls, n + 1)
  {
    var next := trace + [w];
    if GoodRefs(next[0]) && forall i :: 0 <= i < n + 1 ==> SafeCall(next[i], calls[i]) {
      forall i | 0 <= i <= n
        ensures SafeCall(trace[i], calls[i])
      {
        assert next[i] == trace[i];
      }
      assert GoodRefs(trace[n]);
    }
  }

  /** One more world. */
  method PerformNext(trace: seq<World>, calls: seq<Call>, n: nat) returns (next: seq<World>)
    requires n < |calls| && |trace| == n + 1
    requires GoodTrace(trace) && FollowsCalls(trace, calls, n) && GoodIfSafe(trace, calls, n)
    ensures |next| == n + 2 && next[0] == trace[0]
    ensures GoodTrace(next) && FollowsCalls(next, calls, n + 1) && GoodIfSafe(next, calls, n + 1)
  {
    var w := Perform(trace[n], calls[n]);
    GoodTraceGrows(trace, w);
    CallsGrow(trace, w, calls, n);
    GoodGrows(trace, w, calls, n);
    next := trace + [w];
  }

  /** All worlds of a history, the first one included, each made by its call. Every one of
      them satisfies the invariant, everything recorded stays recorded, and if every call is
      safe then no release loses its revision in any state that a power loss could leave. */
  method PerformAll(w0: World, calls: seq<Call>) returns (trace: seq<World>)
    requires Inv(w0)
    ensures |trace| == |calls| + 1 && trace[0] == w0
    ensures GoodTrace(trace) && FollowsCalls(trace, calls, |calls|)
    ensures GoodRefs(w0) && (forall i :: 0 <= i < |calls| ==> SafeCall(trace[i], calls[i])) ==>
              forall i :: 0 <= i < |trace| ==> GoodRefs(trace[i])
  {
    trace := [w0];
    for n := 0 to |calls|
      invariant |trace| == n + 1 && trace[0] == w0
      invariant GoodTrace(trace) && FollowsCalls(trace, calls, n) && GoodIfSafe(trace, calls, n)
    {
      trace := PerformNext(trace, calls, n);
    }
  }

  lemma HistoryComposes(w0: World, w1: World, w2: World)
    requires History(w0, w1) && History(w1, w2)
    ensures History(w0, w2)
  {
  }
}
