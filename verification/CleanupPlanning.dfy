/** Planning against the ledger and the store: unfinished operations reserve their
    items, and a freshly built plan can always be published without overlapping them. */
module CleanupPlanning {
  import opened Artifacts
  import opened Faults
  import opened CleanupModel
  import opened CleanupSteps
  import opened CleanupReferences
  import opened CleanupEffects
  import opened CleanupLoop
  import opened CleanupExecution
  import opened CleanupRetirement
  import opened CleanupTheorems
  import P = Protection
  import Planner
  import PlannerStability

  // ---------- Reservations ----------

  /** Everything protect_from_cleanup_operations checks about a row it does not skip. */
  predicate RowIsValid(op: OpId, o: Operation, t: Trash, resuming: Option<OpId>) {
    && |o.plan| == |o.items|
    && !(HasTombstone(t) && t.preparing)
    && (o.status == StPlanned ==> forall i :: 0 <= i < |o.items| ==> o.items[i] == Planned)
    && (Terminal(o.status) ==> HasTombstone(t) || o.retiring)
    && (o.retiring ==>
          && Terminal(o.status) && AllTerminal(o.items) && o.status == FinalStatus(o.items)
          && o.proof == Succeeded(ExpectedBody(op, o)))
    && (t.preparing ==> o.status == StPlanned)
    && (!Terminal(o.status) ==> o.proof.Recoverable?)
    && (t.retired.Some? ==> t.retired.value == o.plan)
    && (t.retired.None? && t.dir.Some? ==> t.dir.value.marker == Some(o.plan))
    && (HasTombstone(t) && Terminal(o.status) && resuming != Some(op) ==>
          && AllTerminal(o.items) && o.status == FinalStatus(o.items)
          && (o.proof.Succeeded? ==> o.proof.body == ExpectedBody(op, o)))
    && (o.status == StRunning && !HasTombstone(t) ==> forall i :: 0 <= i < |o.items| ==> o.items[i] == Planned)
    && (resuming == Some(op) ==> o.proof.Recoverable?)
  }

  lemma RowAlwaysValid(w: World, op: OpId, resuming: Option<OpId>)
    requires Inv(w) && op in w.db && !w.db[op].retired
    requires resuming == Some(op) ==> w.db[op].proof.Recoverable?
    ensures RowIsValid(op, w.db[op], TrashOf(Visible(w), op), resuming)
  {
    VisibleHolds(w, op);
  }

  /** What a row that passed the checks guarantees: its tombstone carries its own plan, its
      status fits its items, its items fit its stage, and a recorded response is true. */
  lemma ValidRowIsTrue(op: OpId, o: Operation, t: Trash, resuming: Option<OpId>)
    requires RowIsValid(op, o, t, resuming)
    ensures t.retired.Some? ==> t.retired == Some(o.plan)
    ensures t.retired.None? && t.dir.Some? ==> t.dir.value.marker == Some(o.plan)
    ensures t.preparing ==> t.dir.None? && t.retired.None? && o.status == StPlanned
    ensures o.status == StPlanned || (o.status == StRunning && t.dir.None? && t.retired.None?) ==>
              |o.items| == |o.plan| && forall i :: 0 <= i < |o.items| ==> o.items[i] == Planned
    ensures o.status == StPlanned || o.status == StRunning || resuming == Some(op) ==> o.proof.Recoverable? && !o.retiring
    ensures o.retiring ==> TellsOutcome(o.status, o.items) && o.proof.Succeeded? && TellsBody(op, o, o.proof.body)
    ensures (t.dir.Some? || t.retired.Some?) && o.status != StPlanned && o.status != StRunning && resuming != Some(op) ==>
              TellsOutcome(o.status, o.items) && (o.proof.Succeeded? ==> TellsBody(op, o, o.proof.body))
  {
    if |o.plan| == |o.items| && AllTerminal(o.items) {
      ExpectedBodyTells(op, o);
    }
  }

  function OpenItems(o: Operation): set<Artifact> {
    set i | 0 <= i < |o.plan| && i < |o.items| && o.items[i] != Detached :: o.plan[i]
  }

  /** What unfinished operations other than the resumed one reserve. */
  ghost predicate Reserved(w: World, resuming: Option<OpId>, a: Artifact) {
    exists op :: op in w.db && !w.db[op].retired && resuming != Some(op) && IsOpen(w.db[op], a)
  }

  ghost function ReservedSet(w: World, resuming: Option<OpId>): (r: set<Artifact>)
    ensures forall a :: a in r <==> Reserved(w, resuming, a)
  {
    set op, a | op in w.db && !w.db[op].retired && resuming != Some(op) && a in w.db[op].plan && IsOpen(w.db[op], a) :: a
  }

  /** The operations with a tombstone, and those with a tombstone in preparation. */
  function Tombstones(fs: Fs): set<OpId> {
    set op | op in fs.trash && HasTombstone(fs.trash[op])
  }

  function Preparations(fs: Fs): set<OpId> {
    set op | op in fs.trash && fs.trash[op].preparing
  }

  /** Nothing in the trash is unknown to the ledger. */
  lemma FoundAreRecorded(w: World)
    requires Inv(w)
    ensures Tombstones(Visible(w)) <= w.db.Keys && Preparations(Visible(w)) <= w.db.Keys
  {
    assert w.log[|w.log| - 1] in w.log;
    assert FsInv(w.db, Visible(w), w.born);
  }

  /** The rows that protect_from_cleanup_operations does not skip. */
  predicate IsHeld(o: Operation, t: Trash) {
    HasTombstone(t) || o.retiring || !Terminal(o.status)
  }

  lemma SkippedHasNoTrash(w: World, op: OpId)
    requires Inv(w) && op in w.db && !IsHeld(w.db[op], TrashOf(Visible(w), op))
    ensures TrashOf(Visible(w), op) == EmptyTrash
  {
    HeldIffUnretired(w, op);
    VisibleHolds(w, op);
  }

  /** What one row adds: its tombstone or preparation, if it has one, and the items it
      reserves unless it is the resumed operation. */
  method ProtectFromRow(w: World, op: OpId, resuming: Option<OpId>)
    returns (valid: bool, tombstone: bool, preparation: bool, items: set<Artifact>)
    requires Inv(w) && op in w.db
    requires resuming == Some(op) ==> w.db[op].proof.Recoverable?
    ensures valid
    ensures tombstone <==> op in Tombstones(Visible(w))
    ensures preparation <==> op in Preparations(Visible(w))
    ensures items == if w.db[op].retired || resuming == Some(op) then {} else OpenItems(w.db[op])
  {
    var o, t := w.db[op], TrashOf(Visible(w), op);
    valid, tombstone, preparation, items := true, false, false, {};
    HeldIffUnretired(w, op);
    if IsHeld(o, t) {
      RowAlwaysValid(w, op, resuming);
      valid := RowIsValid(op, o, t, resuming);
      tombstone, preparation := HasTombstone(t), t.preparing;
      if resuming != Some(op) {
        items := OpenItems(o);
      }
    } else {
      SkippedHasNoTrash(w, op);
    }
  }

  /** What the rows outside `todo` reserve. */
  ghost predicate ReservesSoFar(w: World, resuming: Option<OpId>, todo: set<OpId>, reserved: set<Artifact>) {
    forall a :: a in reserved <==>
      exists op :: op in w.db && op !in todo && !w.db[op].retired && resuming != Some(op) && IsOpen(w.db[op], a)
  }

  lemma ReservesOneMore(w: World, resuming: Option<OpId>, todo: set<OpId>, reserved: set<Artifact>, op: OpId, items: set<Artifact>)
    requires op in todo && op in w.db && ReservesSoFar(w, resuming, todo, reserved)
    requires items == if w.db[op].retired || resuming == Some(op) then {} else OpenItems(w.db[op])
    ensures ReservesSoFar(w, resuming, todo - {op}, reserved + items)
  {
  }

  lemma NothingReservedYet(w: World, resuming: Option<OpId>)
    ensures ReservesSoFar(w, resuming, w.db.Keys, {})
  {
  }

  lemma AllReserved(w: World, resuming: Option<OpId>, reserved: set<Artifact>)
    requires ReservesSoFar(w, resuming, {}, reserved)
    ensures reserved == ReservedSet(w, resuming)
  {
    forall a
      ensures a in reserved <==> Reserved(w, resuming, a)
    {
    }
  }

  /** One more operation looked for among those found. */
  lemma MatchesOneMore(found: set<OpId>, todo: set<OpId>, op: OpId, here: bool)
    requires op in todo && (here <==> op in found)
    ensures (found - todo) + (if here then {op} else {}) == found - (todo - {op})
  {
  }

  /** protect_from_cleanup_operations never rejects its own records, neither a row nor a
      tombstone or preparation without one, and reserves exactly the items that unfinished
      operations have not detached. */
  method ProtectFromCleanupOperations(w: World, resuming: Option<OpId>) returns (r: Result<set<Artifact>, P.PlanError>)
    requires Inv(w)
    requires resuming.Some? ==> resuming.value in w.db && w.db[resuming.value].proof.Recoverable?
    ensures r.Ok? && r.value == ReservedSet(w, resuming)
  {
    var ok, reserved := true, {};
    var tombstones, preparations := Tombstones(Visible(w)), Preparations(Visible(w));
    var matchedTombstones: set<OpId>, matchedPreparations: set<OpId> := {}, {};
    var todo := w.db.Keys;
    FoundAreRecorded(w);
    NothingReservedYet(w, resuming);
    while todo != {}
      invariant ok && todo <= w.db.Keys && ReservesSoFar(w, resuming, todo, reserved)
      invariant matchedTombstones == tombstones - todo && matchedPreparations == preparations - todo
      decreases |todo|
    {
      var op :| op in todo;
      var valid, tombstone, preparation, items := ProtectFromRow(w, op, resuming);
      ReservesOneMore(w, resuming, todo, reserved, op, items);
      MatchesOneMore(tombstones, todo, op, tombstone);
      MatchesOneMore(preparations, todo, op, preparation);
      ok := ok && valid;
      matchedTombstones := matchedTombstones + if tombstone then {op} else {};
      matchedPreparations := matchedPreparations + if preparation then {op} else {};
      reserved := reserved + items;
      todo := todo - {op};
    }
    AllReserved(w, resuming, reserved);
    ok := ok && matchedTombstones == tombstones && matchedPreparations == preparations;
    r := if ok then Ok(reserved) else Err(P.RecordInvalid);
  }

  // ---------- Admission ----------

  /** The scan lists exactly what is in the store. */
  predicate Lists(w: World, inv: P.Inventory)
    requires |w.log| > 0
  {
    var store := Visible(w).canonical;
    && Planner.InventoryOk(inv)
    && (forall a :: a in store ==> Planner.InInventory(inv, a))
    && (forall r :: r in inv.releases ==> Planner.AsArtifact(r) in store)
    && (forall k :: k in inv.revisions ==> Planner.RevisionArtifact(k) in store)
    && (forall a :: a in inv.temps ==> a in store)
  }

  /** Release identifiers are never reused. */
  ghost predicate UniqueReleases(w: World) {
    forall a, b :: a in w.born && b in w.born && a.Release? && b.Release? && a.app == b.app && a.id == b.id ==> a == b
  }

  /** Everything that an unfinished operation other than the resumed one reserves is in its
      place. */
  ghost predicate OthersInPlace(w: World, resuming: Option<OpId>)
    requires |w.log| > 0
  {
    forall op, i ::
      op in w.db && !w.db[op].retired && resuming != Some(op) && 0 <= i < |w.db[op].plan| && IsOpen(w.db[op], w.db[op].plan[i]) ==>
        w.db[op].plan[i] in Visible(w).canonical
  }

  /** The records of a call: what the unfinished operations reserve is read from the ledger. */
  ghost function RecordsNow(w: World, records: P.Records, resuming: Option<OpId>): P.Records {
    records.(reserved := ReservedSet(w, resuming))
  }

  /** A key in the inventory tells the release, because identifiers are never reused. */
  lemma ListedByKey(w: World, inv: P.Inventory, a: Artifact)
    requires Inv(w) && Lists(w, inv) && UniqueReleases(w) && a in w.born
    requires a.Release? && (a.app, a.id) in P.ValidReleases(inv)
    ensures a in Visible(w).canonical
  {
    var r :| r in inv.releases && P.ReleaseKey(r) == (a.app, a.id);
    StoredIsBorn(w, Planner.AsArtifact(r));
  }

  /** Plannable means that everything reserved is in its place. */
  lemma ReservedIsInPlace(w: World, inv: P.Inventory, records: P.Records, resuming: Option<OpId>)
    requires Inv(w) && Lists(w, inv) && UniqueReleases(w) && Planner.ProtectedPresent(inv, RecordsNow(w, records, resuming))
    ensures OthersInPlace(w, resuming)
  {
    var rec := RecordsNow(w, records, resuming);
    forall op, i | op in w.db && !w.db[op].retired && resuming != Some(op) && 0 <= i < |w.db[op].plan| && IsOpen(w.db[op], w.db[op].plan[i])
      ensures w.db[op].plan[i] in Visible(w).canonical
    {
      var a := w.db[op].plan[i];
      assert Reserved(w, resuming, a);
      assert a in rec.reserved;
      VisibleHolds(w, op);
      PlannedIsBorn(op, w.db[op], TrashOf(Visible(w), op), Visible(w).canonical, w.born, i);
      match a
      case Release(app, id, _) =>
        assert Planner.ReleaseProtected(inv, rec, (app, id));
        ListedByKey(w, inv, a);
      case ConfigRevision(app, id) =>
        assert Planner.RevisionProtected(inv, rec, (app, id));
        assert (app, id) in inv.revisions;
      case Temporary(_, _, _) =>
    }
  }

  lemma StoredIsBorn(w: World, a: Artifact)
    requires Inv(w) && a in Visible(w).canonical
    ensures a in w.born
  {
    assert w.log[|w.log| - 1] in w.log;
    assert FsInv(w.db, Visible(w), w.born);
  }

  /** A fresh plan meets every condition of publication, and planning its revisions
      after the releases that name them makes the publication safe. */
  lemma PlanIsPublishable(w: World, inv: P.Inventory, records: P.Records, automatic: Option<Uuid>, p: Planner.Plan, op: OpId)
    requires Inv(w) && Lists(w, inv) && UniqueReleases(w)
    requires Planner.ProtectedPresent(inv, RecordsNow(w, records, None))
    requires Planner.IsPlan(inv, RecordsNow(w, records, None), automatic, p)
    ensures Admissible(w, p.candidates) && ReleasesFirst(p.candidates) && SafeCall(w, Publish(op, p.candidates))
  {
    var rec, b, plan := RecordsNow(w, records, None), Planner.BlockedBy(p), p.candidates;
    Planner.ProtectionsBlock(inv, rec, p);
    Planner.PlanIsSafe(inv, b, automatic);
    ReservedIsInPlace(w, inv, records, None);
    forall i | 0 <= i < |plan|
      ensures plan[i] in Visible(w).canonical && CoveredItem(plan, i, Visible(w).canonical)
    {
      assert plan[i] in plan;
      forall r | r in Visible(w).canonical && Names(r, plan[i])
        ensures Precedes(plan, r, i)
      {
        assert Planner.InInventory(inv, r);
        var item :| item in inv.releases && Planner.AsArtifact(item) == r;
        Planner.PlanCoversRevisions(inv, b, automatic, i, item);
      }
    }
    forall y, i | y in w.db && !w.db[y].retired && 0 <= i < |plan|
      ensures !IsOpen(w.db[y], plan[i])
    {
      assert plan[i] in plan;
      if IsOpen(w.db[y], plan[i]) {
        assert Reserved(w, None, plan[i]);
        ReservedIsBlocked(inv, rec, b, plan[i]);
        assert false;
      }
    }
    forall i, j | 0 <= i < j < |plan| && plan[i].ConfigRevision?
      ensures !plan[j].Release?
    {
      Planner.ReleasesComeFirst(inv, b, automatic, i, j);
    }
  }

  lemma ReservedIsBlocked(inv: P.Inventory, rec: P.Records, b: Planner.Blocked, a: Artifact)
    requires Planner.Blocks(inv, rec, b) && a in rec.reserved
    ensures Planner.IsBlocked(b, a)
  {
  }

  /** Who asks for a cleanup: an administrator, with the whole plan of a preview, or the
      enabled retention policy of an application. */
  datatype Request = Confirmed(preview: Planner.Plan) | ByPolicy(app: Uuid)

  function Scope(q: Request): Option<Uuid> {
    if q.ByPolicy? then Some(q.app) else None
  }

  /** The request is granted by a current plan `p`: it is the confirmed one, or the policy
      is enabled, its application is there and the plan is not empty. */
  predicate Grants(inv: P.Inventory, records: P.Records, q: Request, p: Planner.Plan) {
    match q
    case Confirmed(preview) => preview == p
    case ByPolicy(app) => app in records.policies && (exists a :: a in inv.apps && a.id == app) && p.candidates != []
  }

  /** Exactly when an operation is published. A confirmed preview must be the whole current
      plan, with everything it protects and why; a policy must be enabled, its application
      must be there, and its plan must not be empty. */
  ghost predicate Admits(w: World, inv: P.Inventory, records: P.Records, q: Request) {
    var rec := RecordsNow(w, records, None);
    && Planner.Plannable(inv, rec)
    && match q
       case Confirmed(preview) => Planner.IsPlan(inv, rec, None, preview)
       case ByPolicy(app) =>
         && app in records.policies && (exists a :: a in inv.apps && a.id == app)
         && exists p :: Planner.IsPlan(inv, rec, Some(app), p) && p.candidates != []
  }

  /** The current plan grants exactly what is admitted. */
  lemma GrantsIffAdmits(w: World, inv: P.Inventory, records: P.Records, q: Request, p: Planner.Plan)
    requires Planner.Plannable(inv, RecordsNow(w, records, None))
    requires Planner.IsPlan(inv, RecordsNow(w, records, None), Scope(q), p)
    ensures Grants(inv, records, q, p) <==> Admits(w, inv, records, q)
    ensures Scope(q) == if q.ByPolicy? then Some(q.app) else None
  {
    forall other | Planner.IsPlan(inv, RecordsNow(w, records, None), Scope(q), other)
      ensures other == p
    {
      Planner.PlanIsUnique(inv, RecordsNow(w, records, None), Scope(q), p, other);
    }
  }

  /** `plan` lists the candidates of the current plan for the request. */
  ghost predicate IsPlanFor(w: World, inv: P.Inventory, records: P.Records, q: Request, plan: seq<Artifact>) {
    exists p: Planner.Plan :: p.candidates == plan &&
      Planner.IsPlan(inv, RecordsNow(w, records, None), if q.ByPolicy? then Some(q.app) else None, p)
  }

  /** The admission of a new operation under the catalog lock: plan, compare, publish. What
      is published is the current plan, and it overlaps no unfinished operation. */
  method Admit(w0: World, inv: P.Inventory, records: P.Records, op: OpId, q: Request) returns (w1: World, published: bool)
    requires Inv(w0) && Lists(w0, inv) && UniqueReleases(w0) && op !in w0.db
    ensures Inv(w1) && (published <==> Admits(w0, inv, records, q))
    ensures !published ==> w1 == w0
    ensures published ==> op in w1.db && w1 == Published(w0, op, w1.db[op].plan) && ReleasesFirst(w1.db[op].plan)
    ensures published ==> IsPlanFor(w0, inv, records, q, w1.db[op].plan) && Admissible(w0, w1.db[op].plan)
    ensures published && q.Confirmed? ==> w1.db[op].plan == q.preview.candidates
    ensures published && q.ByPolicy? ==> w1.db[op].plan != []
    ensures GoodRefs(w0) ==> GoodRefs(w1)
  {
    w1, published := w0, false;
    var reserved := ProtectFromCleanupOperations(w0, None);
    var rec := records.(reserved := reserved.value);
    var plan := Planner.BuildPlan(inv, rec, Scope(q));
    if plan.Ok? {
      GrantsIffAdmits(w0, inv, records, q, plan.value);
      if Grants(inv, records, q, plan.value) {
        w1 := PublishPlan(w0, inv, records, op, Scope(q), plan.value);
        published := true;
      }
    }
  }

  method PublishPlan(w0: World, inv: P.Inventory, records: P.Records, op: OpId, automatic: Option<Uuid>, p: Planner.Plan) returns (w1: World)
    requires Inv(w0) && Lists(w0, inv) && UniqueReleases(w0) && op !in w0.db
    requires Planner.ProtectedPresent(inv, RecordsNow(w0, records, None))
    requires Planner.IsPlan(inv, RecordsNow(w0, records, None), automatic, p)
    ensures Inv(w1) && w1 == Published(w0, op, p.candidates)
    ensures Admissible(w0, p.candidates) && ReleasesFirst(p.candidates)
    ensures GoodRefs(w0) ==> GoodRefs(w1)
  {
    PlanIsPublishable(w0, inv, records, automatic, p, op);
    PublishKeepsInv(w0, op, p.candidates);
    if GoodRefs(w0) {
      PublishKeepsGoodRefs(w0, op, p.candidates);
    }
    w1 := Published(w0, op, p.candidates);
  }

  // ---------- Resumption ----------

  /** Nothing protects artifact `a` now, and no other operation reserves it. */
  ghost predicate IsFree(w: World, inv: P.Inventory, records: P.Records, op: OpId, a: Artifact) {
    && !Reserved(w, Some(op), a)
    && (a.Release? ==> forall reason :: !P.ReleaseReason(inv, records, records.deployments, (a.app, a.id), reason))
    && (a.ConfigRevision? ==> forall reason :: !P.RevisionReason(inv, records, records.deployments, (a.app, a.id), reason))
  }

  lemma CandidateIsFree(w: World, inv: P.Inventory, records: P.Records, p: Planner.Plan, automatic: Option<Uuid>, op: OpId, a: Artifact)
    requires Planner.InventoryOk(inv) && Planner.IsPlan(inv, RecordsNow(w, records, Some(op)), automatic, p) && a in p.candidates
    ensures IsFree(w, inv, records, op, a)
  {
    var rec, b := RecordsNow(w, records, Some(op)), Planner.BlockedBy(p);
    Planner.ProtectionsBlock(inv, rec, p);
    Planner.PlanIsSafe(inv, b, automatic);
    PlannerStability.SameRecords(inv, rec, records);
    if Reserved(w, Some(op), a) {
      ReservedIsBlocked(inv, rec, b, a);
      assert false;
    }
    if a.Release? {
      assert !Planner.ReleaseProtected(inv, rec, (a.app, a.id));
    } else if a.ConfigRevision? {
      assert !Planner.RevisionProtected(inv, rec, (a.app, a.id));
    }
  }

  /** What a resumed operation may still detach: what a fresh plan offers, and nothing if
      the operation belongs to a policy that was disabled. */
  function StillEligible(records: P.Records, policy: Option<Uuid>, p: Planner.Plan): set<Artifact> {
    if policy.Some? && policy.value !in records.policies then {} else set a | a in p.candidates
  }

  /** The policy that an operation belongs to, if any, was disabled. */
  ghost predicate IsDisabled(records: P.Records, policy: Option<Uuid>) {
    policy.Some? && policy.value !in records.policies
  }

  /** How item `i` ends in an undisturbed resumed run whose fresh plan is `p`: a recorded
      item stays as it is; one that was moved is detached; one in the store is protected
      unless the plan lists it and the policy is not disabled; and otherwise it is kept for
      a release that names it and was retained, or detached. */
  ghost predicate EndsByPlan(w0: World, w1: World, records: P.Records, op: OpId, policy: Option<Uuid>, p: Planner.Plan, i: nat)
    requires |w0.log| > 0 && op in w0.db && op in w1.db && i < |w0.db[op].plan| == |w0.db[op].items| == |w1.db[op].items|
  {
    var plan, items := w0.db[op].plan, w1.db[op].items;
    items[i] ==
      if w0.db[op].items[i] != Planned then w0.db[op].items[i]
      else if plan[i] !in Visible(w0).canonical then Detached
      else if plan[i] !in p.candidates || IsDisabled(records, policy) then Failed(ItemProtected)
      else if exists j :: 0 <= j < i && Names(plan[j], plan[i]) && items[j].Failed? then Failed(ReleaseRetained)
      else Detached
  }

  /** Every item ended as the fresh plan decides it. */
  ghost predicate SettlesByPlan(w0: World, w1: World, inv: P.Inventory, records: P.Records, op: OpId, policy: Option<Uuid>) {
    && |w0.log| > 0 && op in w0.db && op in w1.db && |w0.db[op].plan| == |w0.db[op].items| == |w1.db[op].items|
    && forall p, i :: Planner.IsPlan(inv, RecordsNow(w0, records, Some(op)), policy, p) && 0 <= i < |w0.db[op].plan| ==>
         EndsByPlan(w0, w1, records, op, policy, p, i)
  }

  /** What the loop decides, item by item. */
  lemma SettledEndsByPlan(w0: World, w1: World, records: P.Records, op: OpId, policy: Option<Uuid>, p: Planner.Plan, i: nat)
    requires Inv(w0) && op in w0.db && op in w1.db && w0.db[op].proof.Recoverable? && i < |w0.db[op].plan|
    requires Settled(w0, w1, op, Some(StillEligible(records, policy, p)), |w0.db[op].plan|)
    ensures EndsByPlan(w0, w1, records, op, policy, p, i)
  {
    var o, moved, eligible := w0.db[op], PayloadKeys(TrashOf(Visible(w0), op)), Some(StillEligible(records, policy, p));
    SettledItem(o, moved, eligible, |o.plan|, i);
    SettledPrefix(o, moved, eligible, |o.plan|, i);
    if o.items[i] == Planned {
      if o.plan[i] in Visible(w0).canonical {
        UnmovedItem(w0, op, i);
      } else {
        MovedItem(w0, op, i);
        MovedStaysClear(o, moved, eligible, i);
      }
    }
  }

  /** A planned item outside the store is in the payload, and nothing keeps it back. */
  lemma MovedItem(w: World, op: OpId, i: nat)
    requires Inv(w) && op in w.db && w.db[op].proof.Recoverable? && i < |w.db[op].plan| == |w.db[op].items|
    requires w.db[op].items[i] == Planned && w.db[op].plan[i] !in Visible(w).canonical
    ensures i in PayloadKeys(TrashOf(Visible(w), op)) && Cleared(w.db[op], i)
  {
    var o, t := w.db[op], TrashOf(Visible(w), op);
    VisibleHolds(w, op);
    assert t.dir.None? ==> ItemOk(o, i, map[], Visible(w).canonical, w.born);
    assert ItemOk(o, i, t.dir.value.payload.value, Visible(w).canonical, w.born);
  }

  lemma {:induction false} RecordedStays(o: Operation, moved: set<nat>, eligible: Option<set<Artifact>>, n: nat, j: nat)
    requires n <= |o.plan| == |o.items| && j < |o.items| && o.items[j] != Planned
    ensures Settle(o.plan, o.items, moved, eligible, n)[j] == o.items[j]
  {
    if n > 0 {
      RecordedStays(o, moved, eligible, n - 1, j);
    }
  }

  lemma MovedStaysClear(o: Operation, moved: set<nat>, eligible: Option<set<Artifact>>, i: nat)
    requires i < |o.plan| == |o.items| && Cleared(o, i)
    ensures !Kept(o.plan, Settle(o.plan, o.items, moved, eligible, i), i)
  {
    forall j | 0 <= j < i
      ensures Settle(o.plan, o.items, moved, eligible, i)[j] == o.items[j]
    {
      RecordedStays(o, moved, eligible, i, j);
    }
  }

  lemma TheOnlyPlanSettles(w0: World, w1: World, inv: P.Inventory, records: P.Records, op: OpId, policy: Option<Uuid>, p: Planner.Plan)
    requires Inv(w0) && op in w0.db && op in w1.db && w0.db[op].proof.Recoverable?
    requires Planner.IsPlan(inv, RecordsNow(w0, records, Some(op)), policy, p)
    requires Settled(w0, w1, op, Some(StillEligible(records, policy, p)), |w0.db[op].plan|)
    ensures SettlesByPlan(w0, w1, inv, records, op, policy)
  {
    forall q, i | Planner.IsPlan(inv, RecordsNow(w0, records, Some(op)), policy, q) && 0 <= i < |w0.db[op].plan|
      ensures EndsByPlan(w0, w1, records, op, policy, q, i)
    {
      Planner.PlanIsUnique(inv, RecordsNow(w0, records, Some(op)), policy, p, q);
      SettledEndsByPlan(w0, w1, records, op, policy, p, i);
    }
  }

  /** Resuming an operation, of an administrator or of the policy of an application: plan again without
      its own reservation, then run it on what is still allowed. Whatever faults occur,
      nothing leaves the store that is protected now or reserved by another operation.
      Undisturbed, the operation ends retired, each item as the fresh plan decides it. */
  method Resume(w0: World, inv: P.Inventory, records: P.Records, op: OpId, policy: Option<Uuid>, faults: seq<Fault>) returns (w1: World, resumed: bool)
    requires Inv(w0) && Lists(w0, inv) && op in w0.db && w0.db[op].proof.Recoverable?
    ensures Inv(w1) && History(w0, w1) && ApplyFrame(w0, w1, op)
    ensures resumed <==> Planner.Plannable(inv, RecordsNow(w0, records, Some(op)))
    ensures !resumed ==> w1 == w0
    ensures resumed && faults == [] ==> w1.db[op].retired && SettlesByPlan(w0, w1, inv, records, op, policy)
    ensures GoodRefs(w0) ==> GoodRefs(w1)
    ensures forall a :: a in Visible(w0).canonical && a !in Visible(w1).canonical ==> IsFree(w0, inv, records, op, a)
    ensures IsDisabled(records, policy) ==> forall a :: a in Visible(w0).canonical ==> a in Visible(w1).canonical
  {
    w1, resumed := w0, false;
    var reserved := ProtectFromCleanupOperations(w0, Some(op));
    var rec := records.(reserved := reserved.value);
    var plan := Planner.BuildPlan(inv, rec, policy);
    if plan.Ok? {
      resumed := true;
      var eligible := StillEligible(records, policy, plan.value);
      w1 := PerformRun(w0, op, Some(eligible), faults);
      forall a | a in Visible(w0).canonical && a !in Visible(w1).canonical
        ensures IsFree(w0, inv, records, op, a)
      {
        assert a in eligible;
        CandidateIsFree(w0, inv, records, plan.value, policy, op, a);
      }
      if faults == [] {
        TheOnlyPlanSettles(w0, w1, inv, records, op, policy, plan.value);
      }
    }
  }
}
