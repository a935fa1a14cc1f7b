/** Whole histories with the planner inside: requests, resumptions, retirements, faults
    and power losses in any order, and why everything left unfinished can be finished. */
module CleanupHistory {
  import opened Artifacts
  import opened Faults
  import opened CleanupModel
  import opened CleanupSteps
  import opened CleanupReferences
  import opened CleanupEffects
  import opened CleanupLoop
  import opened CleanupExecution
  import opened CleanupRetirement
  import opened CleanupTheorems
  import opened CleanupPlanning
  import opened CleanupProgress
  import P = Protection
  import Planner
  import PlannerStability
  import Sorting

  // ---------- Events ----------

  /** What can happen. A request or a resumption comes with what the scan and the database
      say at that moment. */
  datatype Event =
    | Publication(a: Artifact, inode: Inode)
    | Asked(op: OpId, inv: P.Inventory, records: P.Records, request: Request, faults: seq<Fault>)
    | Resumed(op: OpId, inv: P.Inventory, records: P.Records, policy: Option<Uuid>, faults: seq<Fault>)
    | Finalized(faults: seq<Fault>)
    | PowerLost(kept: nat)

  /** What holds after every event. */
  ghost predicate Sound(w: World) {
    Inv(w) && UniqueReleases(w) && OneMoving(w)
  }

  /** The only condition that cleanup itself does not meet: a release is published with its
      revision in the store and not reserved. */
  ghost predicate SafeEvent(w: World, e: Event) {
    e.Publication? ==> SafeCall(w, Create(e.a, e.inode))
  }

  /** An artifact that was never there, under an identifier that was never used. */
  predicate IsNew(w: World, a: Artifact) {
    a !in w.born && (a.Release? ==> forall b :: b in w.born && b.Release? ==> (b.app, b.id) != (a.app, a.id))
  }

  /** Operation `op` took everything it planned, and is retired. */
  ghost predicate TookAll(w: World, op: OpId)
    requires |w.log| > 0 && op in w.db
  {
    && w.db[op].retired && |w.db[op].items| == |w.db[op].plan|
    && forall i :: 0 <= i < |w.db[op].plan| ==> w.db[op].items[i] == Detached && w.db[op].plan[i] !in Visible(w).canonical
  }

  /** What an admitted request does: it publishes the current plan, takes nothing else, and
      undisturbed it takes all of it. */
  ghost predicate Served(w0: World, w1: World, inv: P.Inventory, records: P.Records, op: OpId, request: Request, faults: seq<Fault>) {
    && |w0.log| > 0 && |w1.log| > 0 && op in w1.db
    && IsPlanFor(w0, inv, records, request, w1.db[op].plan)
    && OnlyPlannedLeft(w0, w1, w1.db[op].plan)
    && (faults == [] ==> TookAll(w1, op))
  }

  /** What a resumption does: it takes only what is free, nothing for a disabled policy, and
      undisturbed it ends retired with every item as the fresh plan decides. */
  ghost predicate Continued(w0: World, w1: World, inv: P.Inventory, records: P.Records, op: OpId, policy: Option<Uuid>, faults: seq<Fault>) {
    && |w0.log| > 0 && |w1.log| > 0 && op in w1.db
    && Visible(w1).canonical.Keys <= Visible(w0).canonical.Keys
    && (forall a :: a in Visible(w0).canonical && a !in Visible(w1).canonical ==>
          IsFree(w0, inv, records, op, a) && !IsDisabled(records, policy))
    && (faults == [] ==> w1.db[op].retired && SettlesByPlan(w0, w1, inv, records, op, policy))
  }

  /** What each event does. What the code would refuse, or what the scan would not say,
      changes nothing. */
  ghost predicate Happened(w0: World, e: Event, w1: World)
    requires |w0.log| > 0
  {
    match e
    case Publication(a, inode) =>
      if a in w0.born || (a.Release? && exists b :: b in w0.born && b.Release? && b.app == a.app && b.id == a.id) then w1 == w0
      else w1 == Created(w0, a, inode)
    case Asked(op, inv, records, request, faults) =>
      if op in w0.db || !Lists(w0, inv) || !Admits(w0, inv, records, request) then w1 == w0
      else Served(w0, w1, inv, records, op, request, faults)
    case Resumed(op, inv, records, policy, faults) =>
      if op !in w0.db || !w0.db[op].proof.Recoverable? || !Lists(w0, inv) || !RulesHold(inv, records) || !NoneMovingBut(w0, Some(op)) then w1 == w0
      else Continued(w0, w1, inv, records, op, policy, faults)
    case Finalized(faults) =>
      PassFrame(w0, w1) && (faults == [] ==> forall op :: op in w1.db && Proved(w1.db[op]) ==> w1.db[op].retired)
    case PowerLost(kept) =>
      w1 == if kept < |w0.log| then w0.(log := [w0.log[kept]]) else w0
  }

  /** One event, under any faults. */
  method Handle(w0: World, e: Event) returns (w1: World)
    requires Sound(w0)
    ensures Sound(w1) && History(w0, w1) && Happened(w0, e, w1)
    ensures GoodRefs(w0) && SafeEvent(w0, e) ==> GoodRefs(w1)
  {
    w1 := w0;
    match e
    case Publication(a, inode) =>
      if IsNew(w0, a) {
        w1 := HandlePublication(w0, a, inode);
      }
    case Asked(op, inv, records, request, faults) =>
      if op !in w0.db && Lists(w0, inv) {
        w1 := HandleRequest(w0, inv, records, op, request, faults);
      }
    case Resumed(op, inv, records, policy, faults) =>
      if op in w0.db && w0.db[op].proof.Recoverable? && Lists(w0, inv) {
        var resumed;
        w1, resumed := HandleResume(w0, inv, records, op, policy, faults);
      }
    case Finalized(faults) =>
      w1 := HandleFinalize(w0, faults);
    case PowerLost(kept) =>
      if kept < |w0.log| {
        w1 := HandlePowerLoss(w0, kept);
      }
  }

  method HandlePublication(w0: World, a: Artifact, inode: Inode) returns (w1: World)
    requires Sound(w0) && IsNew(w0, a)
    ensures Sound(w1) && History(w0, w1) && w1 == Created(w0, a, inode)
    ensures GoodRefs(w0) && SafeCall(w0, Create(a, inode)) ==> GoodRefs(w1)
  {
    CreateKeepsInv(w0, a, inode);
    if GoodRefs(w0) && SafeCall(w0, Create(a, inode)) {
      CreateKeepsGoodRefs(w0, a, inode);
    }
    w1 := Created(w0, a, inode);
    NothingStartsMoving(w0, w1);
  }

  /** A request: admission, then the first run on what was just planned. */
  method HandleRequest(w0: World, inv: P.Inventory, records: P.Records, op: OpId, request: Request, faults: seq<Fault>) returns (w1: World)
    requires Sound(w0) && Lists(w0, inv) && op !in w0.db
    ensures Sound(w1) && History(w0, w1)
    ensures op in w1.db <==> Admits(w0, inv, records, request)
    ensures op !in w1.db ==> w1 == w0
    ensures op in w1.db ==> Served(w0, w1, inv, records, op, request, faults)
    ensures GoodRefs(w0) ==> GoodRefs(w1)
  {
    var w, published := Admit(w0, inv, records, op, request);
    w1 := w;
    if published {
      var plan := w.db[op].plan;
      PublishedIsReady(w0, op, plan);
      w1 := FirstRun(w, op, request.ByPolicy?, faults);
      PublishedThenRun(w0, w1, op, plan);
    }
  }

  /** A published operation of which nothing was done, while nothing is in motion. */
  ghost predicate IsReady(w: World, op: OpId) {
    && Inv(w) && UniqueReleases(w) && NoneMovingBut(w, None)
    && op in w.db && w.db[op].proof.Recoverable? && !w.db[op].retired && |w.db[op].items| == |w.db[op].plan|
    && forall i :: 0 <= i < |w.db[op].items| ==> w.db[op].items[i] == Planned
  }

  lemma PublishedIsReady(w: World, op: OpId, plan: seq<Artifact>)
    requires Inv(w) && UniqueReleases(w) && op !in w.db && Admissible(w, plan)
    ensures IsReady(Published(w, op, plan), op)
  {
    PublishKeepsInv(w, op, plan);
    PublishMovesNothing(w, op, plan);
  }

  /** The first run of a published plan. A confirmed plan needs no second check; a policy
      passes its own plan as what is eligible. */
  method FirstRun(w0: World, op: OpId, byPolicy: bool, faults: seq<Fault>) returns (w1: World)
    requires IsReady(w0, op)
    ensures Sound(w1) && History(w0, w1) && op in w1.db
    ensures OnlyPlannedLeft(w0, w1, w0.db[op].plan) && (faults == [] ==> TookAll(w1, op))
    ensures GoodRefs(w0) ==> GoodRefs(w1)
  {
    var eligible := if byPolicy then Some(set a | a in w0.db[op].plan) else None;
    w1 := PerformRun(w0, op, eligible, faults);
    RunMovesOne(w0, w1, op);
    if faults == [] {
      TakesAll(w0, w1, op, eligible);
    }
  }

  lemma TakesAll(w0: World, w1: World, op: OpId, eligible: Option<set<Artifact>>)
    requires Inv(w1) && |w0.log| > 0 && op in w0.db && op in w1.db && Continues(w0.db[op], w1.db[op]) && w1.db[op].retired
    requires Settled(w0, w1, op, eligible, |w0.db[op].plan|)
    requires forall i :: 0 <= i < |w0.db[op].plan| ==> w0.db[op].items[i] == Planned && IsEligible(eligible, w0.db[op].plan[i])
    ensures TookAll(w1, op)
  {
    EverythingGoes(w0.db[op].plan, w0.db[op].items, PayloadKeys(TrashOf(Visible(w0), op)), eligible, |w0.db[op].plan|);
    VisibleHolds(w1, op);
  }

  lemma PublishedThenRun(w0: World, w1: World, op: OpId, plan: seq<Artifact>)
    requires |w0.log| > 0 && |w1.log| > 0 && op !in w0.db && History(Published(w0, op, plan), w1)
    requires OnlyPlannedLeft(Published(w0, op, plan), w1, plan)
    ensures History(w0, w1) && op in w1.db && w1.db[op].plan == plan && OnlyPlannedLeft(w0, w1, plan)
  {
    var w := Published(w0, op, plan);
    assert forall y :: y in w0.db ==> y in w.db && w.db[y] == w0.db[y];
    assert op in w.db && Continues(w.db[op], w1.db[op]);
  }

  method HandleResume(w0: World, inv: P.Inventory, records: P.Records, op: OpId, policy: Option<Uuid>, faults: seq<Fault>)
    returns (w1: World, resumed: bool)
    requires Sound(w0) && Lists(w0, inv) && op in w0.db && w0.db[op].proof.Recoverable?
    ensures Sound(w1) && History(w0, w1)
    ensures resumed <==> RulesHold(inv, records) && NoneMovingBut(w0, Some(op))
    ensures !resumed ==> w1 == w0
    ensures resumed ==> Continued(w0, w1, inv, records, op, policy, faults)
    ensures w1.db.Keys == w0.db.Keys
    ensures GoodRefs(w0) ==> GoodRefs(w1)
  {
    CanResumeIff(w0, inv, records, op);
    VisibleHolds(w0, op);
    w1, resumed := Resume(w0, inv, records, op, policy, faults);
    if resumed {
      RunMovesOne(w0, w1, op);
    }
  }

  method HandleFinalize(w0: World, faults: seq<Fault>) returns (w1: World)
    requires Sound(w0)
    ensures Sound(w1) && History(w0, w1) && PassFrame(w0, w1)
    ensures faults == [] ==> forall op :: op in w1.db && Proved(w1.db[op]) ==> w1.db[op].retired
    ensures GoodRefs(w0) ==> GoodRefs(w1)
  {
    w1 := PerformFinalize(w0, faults);
    NothingStartsMoving(w0, w1);
  }

  method HandlePowerLoss(w0: World, kept: nat) returns (w1: World)
    requires Sound(w0) && kept < |w0.log|
    ensures Sound(w1) && History(w0, w1) && w1 == w0.(log := [w0.log[kept]])
    ensures GoodRefs(w0) ==> GoodRefs(w1)
  {
    PowerLossKeepsInv(w0, kept);
    if GoodRefs(w0) {
      PowerLossKeepsGoodRefs(w0, kept);
    }
    w1 := AfterPowerLoss(w0, kept);
    LogShrinks(w0.log);
    assert w0.log[kept] in w0.log;
    NothingStartsMoving(w0, w1);
  }

  // ---------- Every history ----------

  /** A store without applications and a ledger without rows. */
  function FirstWorld(): World {
    World(map[], [Entry({}, Fs(map[], map[]))], map[])
  }

  lemma FirstWorldIsSound()
    ensures Sound(FirstWorld()) && GoodRefs(FirstWorld())
  {
    var w := FirstWorld();
    assert w.log[0].fs == Fs(map[], map[]);
    assert FsInv(w.db, w.log[0].fs, w.born);
  }

  /** Every world is sound, and each continues the ones before. */
  ghost predicate SoundTrace(trace: seq<World>) {
    && (forall i :: 0 <= i < |trace| ==> Sound(trace[i]))
    && (forall i, j :: 0 <= i <= j < |trace| ==> History(trace[i], trace[j]))
  }

  /** If the first `n` events were safe, then every reference holds. */
  ghost predicate RefsIfSafe(trace: seq<World>, events: seq<Event>, n: nat)
    requires n <= |trace| && n <= |events|
  {
    (forall i :: 0 <= i < n ==> SafeEvent(trace[i], events[i])) ==> forall i :: 0 <= i < |trace| ==> GoodRefs(trace[i])
  }

  lemma TraceGrows(trace: seq<World>, w: World)
    requires |trace| > 0 && SoundTrace(trace) && Sound(w) && History(trace[|trace| - 1], w)
    ensures SoundTrace(trace + [w])
  {
    forall i, j | 0 <= i <= j < |trace + [w]|
      ensures History((trace + [w])[i], (trace + [w])[j])
    {
      if i < j == |trace| {
        HistoryComposes(trace[i], trace[|trace| - 1], w);
      }
    }
  }

  lemma RefsGrow(trace: seq<World>, w: World, events: seq<Event>, n: nat)
    requires n < |events| && |trace| == n + 1 && RefsIfSafe(trace, events, n)
    requires GoodRefs(trace[n]) && SafeEvent(trace[n], events[n]) ==> GoodRefs(w)
    ensures RefsIfSafe(trace + [w], events, n + 1)
  {
    var next := trace + [w];
    if forall i :: 0 <= i < n + 1 ==> SafeEvent(next[i], events[i]) {
      forall i | 0 <= i <= n
        ensures SafeEvent(trace[i], events[i])
      {
        assert next[i] == trace[i];
      }
      assert GoodRefs(trace[n]);
    }
  }

  /** Each of the first `n` events led from one world to the next. */
  ghost predicate FollowsEvents(trace: seq<World>, events: seq<Event>, n: nat)
    requires n < |trace| && n <= |events|
  {
    forall i :: 0 <= i < n ==> |trace[i].log| > 0 && Happened(trace[i], events[i], trace[i + 1])
  }

  lemma EventsGrow(trace: seq<World>, w: World, events: seq<Event>, n: nat)
    requires n < |events| && |trace| == n + 1 && FollowsEvents(trace, events, n)
    requires |trace[n].log| > 0 && Happened(trace[n], events[n], w)
    ensures FollowsEvents(trace + [w], events, n + 1)
  {
    var next := trace + [w];
    forall i | 0 <= i < n + 1
      ensures |next[i].log| > 0 && Happened(next[i], events[i], next[i + 1])
    {
      assert next[i] == trace[i] && next[i + 1] == if i == n then w else trace[i + 1];
    }
  }

  /** One more world. */
  method HandleNext(trace: seq<World>, events: seq<Event>, n: nat) returns (next: seq<World>)
    requires n < |events| && |trace| == n + 1
    requires SoundTrace(trace) && FollowsEvents(trace, events, n) && RefsIfSafe(trace, events, n)
    ensures |next| == n + 2 && next[0] == trace[0]
    ensures SoundTrace(next) && FollowsEvents(next, events, n + 1) && RefsIfSafe(next, events, n + 1)
  {
    var w := Handle(trace[n], events[n]);
    TraceGrows(trace, w);
    EventsGrow(trace, w, events, n);
    RefsGrow(trace, w, events, n);
    next := trace + [w];
  }

  /** All worlds of a history that starts with nothing, each made by its event. In every one
      of them the invariant holds and at most one operation is in motion; everything recorded
      stays recorded; and no release loses its revision, in any state that a power loss could
      leave, if every release was published safely. Planning needs no such condition. */
  method HandleAll(events: seq<Event>) returns (trace: seq<World>)
    ensures |trace| == |events| + 1 && trace[0] == FirstWorld()
    ensures SoundTrace(trace) && FollowsEvents(trace, events, |events|)
    ensures (forall i :: 0 <= i < |events| ==> SafeEvent(trace[i], events[i])) ==>
              forall i :: 0 <= i < |trace| ==> GoodRefs(trace[i])
  {
    FirstWorldIsSound();
    trace := [FirstWorld()];
    for n := 0 to |events|
      invariant |trace| == n + 1 && trace[0] == FirstWorld()
      invariant SoundTrace(trace) && FollowsEvents(trace, events, n) && RefsIfSafe(trace, events, n)
    {
      trace := HandleNext(trace, events, n);
    }
  }

  // ---------- Finishing everything ----------

  function Gone(w0: World, w1: World): set<Artifact>
    requires |w0.log| > 0 && |w1.log| > 0
  {
    set a | a in Visible(w0).canonical && a !in Visible(w1).canonical
  }

  /** What left the store is what is missing from the next inventory. */
  lemma NextInventory(w0: World, w1: World, inv: P.Inventory)
    requires |w0.log| > 0 && |w1.log| > 0 && Lists(w0, inv)
    requires Visible(w1).canonical.Keys <= Visible(w0).canonical.Keys
    ensures Lists(w1, PlannerStability.Without(inv, Gone(w0, w1)))
  {
    var gone := Gone(w0, w1);
    assert Visible(w1).canonical.Keys == Visible(w0).canonical.Keys - gone;
    PlannerStability.RemainingReleasesDistinct(inv.releases, gone);
    PlannerStability.RemainingRevisionsDistinct(inv.revisions, gone);
    PlannerStability.RemainingTempsDistinct(inv.temps, gone);
    forall a | a in Visible(w1).canonical.Keys
      ensures Planner.InInventory(PlannerStability.Without(inv, gone), a)
    {
      assert a in Visible(w0).canonical.Keys;
      assert Planner.InInventory(inv, a);
    }
  }

  /** Taking away what is free leaves the rules as they are. */
  lemma RulesRemain(w: World, inv: P.Inventory, records: P.Records, op: OpId, gone: set<Artifact>)
    requires RulesHold(inv, records)
    requires forall a :: a in gone ==> IsFree(w, inv, records, op, a)
    ensures RulesHold(PlannerStability.Without(inv, gone), records)
    ensures PlannerStability.SameProtection(inv, PlannerStability.Without(inv, gone), records, records)
  {
    var free, inv' := records.(reserved := {}), PlannerStability.Without(inv, gone);
    PlannerStability.SameRecords(inv, records, free);
    PlannerStability.SameRecords(inv', free, records);
    assert PlannerStability.Removable(inv, free, gone);
    PlannerStability.ReasonsAreStable(inv, free, free, gone);
    PlannerStability.ConsistencyRemains(inv, free, free, gone);
    forall k
      ensures Planner.ReleaseProtected(inv', free, k) ==> k in P.ValidReleases(inv')
      ensures Planner.RevisionProtected(inv', free, k) ==> k in inv'.revisions
    {
      PlannerStability.PresenceRemains(inv, free, free, gone, k);
    }
    PlannerStability.SameProtectionComposes(inv, inv, inv', records, free, free);
    PlannerStability.SameProtectionComposes(inv, inv', inv', records, free, records);
  }

  function Unfinished(w: World): set<OpId> {
    set op | op in w.db && w.db[op].proof.Recoverable?
  }

  lemma FewerUnfinished(w0: World, w1: World, op: OpId)
    requires Inv(w1) && History(w0, w1) && w1.db.Keys == w0.db.Keys && op in Unfinished(w0) && w1.db[op].retired
    ensures Unfinished(w1) < Unfinished(w0)
  {
    VisibleHolds(w1, op);
    assert op !in Unfinished(w1);
  }

  method ChooseOne(w: World, ghost inv: P.Inventory, ghost records: P.Records) returns (op: OpId)
    requires Sound(w) && Lists(w, inv) && RulesHold(inv, records) && Unfinished(w) != {}
    ensures op in Unfinished(w) && NoneMovingBut(w, Some(op))
  {
    ghost var some :| some in Unfinished(w);
    ghost var can := SomeCanResume(w, inv, records, some);
    assert can in Unfinished(w);
    op :| op in Unfinished(w) && NoneMovingBut(w, Some(op));
  }

  /** One operation that can be resumed, resumed undisturbed. */
  method FinishOne(w0: World, inv0: P.Inventory, records: P.Records, policies: map<OpId, Uuid>) returns (w1: World, inv1: P.Inventory)
    requires Sound(w0) && Lists(w0, inv0) && RulesHold(inv0, records) && Unfinished(w0) != {}
    ensures Sound(w1) && Lists(w1, inv1) && RulesHold(inv1, records) && History(w0, w1)
    ensures Unfinished(w1) < Unfinished(w0)
    ensures PlannerStability.SameProtection(inv0, inv1, records, records)
    ensures GoodRefs(w0) ==> GoodRefs(w1)
  {
    var op := ChooseOne(w0, inv0, records);
    var resumed;
    w1, resumed := HandleResume(w0, inv0, records, op, if op in policies then Some(policies[op]) else None, []);
    FewerUnfinished(w0, w1, op);
    var gone := Gone(w0, w1);
    inv1 := PlannerStability.Without(inv0, gone);
    NextInventory(w0, w1, inv0);
    RulesRemain(w0, inv0, records, op, gone);
  }

  /** From any world of any history: if the rules hold, then resuming one operation after
      the other, each undisturbed, finishes and retires all of them, the rules still hold,
      and exactly the same is protected, for the same reasons. */
  method FinishAll(w0: World, inv0: P.Inventory, records: P.Records, policies: map<OpId, Uuid>) returns (w1: World, inv1: P.Inventory)
    requires Sound(w0) && Lists(w0, inv0) && RulesHold(inv0, records)
    ensures Sound(w1) && Lists(w1, inv1) && RulesHold(inv1, records) && History(w0, w1)
    ensures forall op :: op in w1.db ==> w1.db[op].retired
    ensures PlannerStability.SameProtection(inv0, inv1, records, records)
    ensures GoodRefs(w0) ==> GoodRefs(w1)
  {
    w1, inv1 := w0, inv0;
    while Unfinished(w1) != {}
      invariant Sound(w1) && Lists(w1, inv1) && RulesHold(inv1, records) && History(w0, w1)
      invariant PlannerStability.SameProtection(inv0, inv1, records, records)
      invariant GoodRefs(w0) ==> GoodRefs(w1)
      decreases Unfinished(w1)
    {
      var w, inv := w1, inv1;
      w1, inv1 := FinishOne(w, inv, records, policies);
      HistoryComposes(w0, w, w1);
      PlannerStability.SameProtectionComposes(inv0, inv, inv1, records, records, records);
    }
    var w := w1;
    w1 := HandleFinalize(w, []);
    HistoryComposes(w0, w, w1);
    forall op | op in w1.db
      ensures w1.db[op].retired
    {
      assert op !in Unfinished(w);
      RowFacts(w1, op);
    }
  }

  // ---------- A release that is not published safely ----------

  const OneApp := P.App(0, None, None, None)
  const NoRecords := P.Records([], map[], {}, {})
  const OldInventory := P.Inventory([OneApp], [], [(0, 7)], [])
  const LateInventory := P.Inventory([OneApp], [P.ReleaseItem(0, 1, 7, 0)], [(0, 7)], [])

  /** With no records and nothing reserved, nothing is protected. */
  lemma NothingIsProtected(inv: P.Inventory, releases: seq<Artifact>)
    requires inv == OldInventory || inv == LateInventory
    ensures Planner.InventoryOk(inv) && Planner.Plannable(inv, NoRecords)
    ensures Planner.ListsProtections(inv, NoRecords, Planner.Plan(releases, {}, {}, {}))
  {
    forall k, reason
      ensures !P.ReleaseReason(inv, NoRecords, [], k, reason)
    {
      assert P.RecentCandidates(inv, [], k.0) == [];
    }
  }

  /** Selecting from a single artifact. */
  lemma TakesTheOnly<T>(x: T, allowed: set<T>, room: nat, leq: (T, T) -> bool)
    requires room > 0 && x in allowed
    ensures Sorting.Sort([x], leq) == [x]
    ensures Planner.TakeFirst([x], allowed, room) == [x]
  {
    assert Sorting.Sort([], leq) == [];
    assert Planner.TakeFirst([x][..0], allowed, room) == [];
  }

  /** The plan before the release appears, and the plan after. */
  lemma PlansOfExample()
    ensures Planner.Candidates(OldInventory, Planner.Blocked({}, {}, {}), None) == [OldRevision]
    ensures Planner.Candidates(LateInventory, Planner.Blocked({}, {}, {}), None) == [LateRelease, OldRevision]
  {
    var b, r := Planner.Blocked({}, {}, {}), P.ReleaseItem(0, 1, 7, 0);
    assert Planner.SelectedReleases(OldInventory, {}, None) == [];
    TakesTheOnly(r, Planner.FreeReleases(LateInventory, {}, None), MAX_CLEANUP_ITEMS, Planner.OlderFirst);
    assert Planner.SelectedReleases(LateInventory, {}, None) == [r];
    RevisionIsFree(OldInventory, []);
    RevisionIsFree(LateInventory, [r]);
    assert Planner.SelectedTemps(OldInventory, b, None) == [] && Planner.SelectedTemps(LateInventory, b, None) == [];
    assert Planner.ReleaseArtifacts([r]) == [LateRelease] && Planner.ReleaseArtifacts([]) == [];
    assert Planner.RevisionArtifacts([(0, 7)]) == [OldRevision];
  }

  lemma RevisionIsFree(inv: P.Inventory, selected: seq<P.ReleaseItem>)
    requires inv.revisions == [(0, 7)] && inv.releases == selected && |selected| <= 1
    requires Planner.SelectedReleases(inv, {}, None) == selected
    ensures Planner.SelectedRevisions(inv, Planner.Blocked({}, {}, {}), None) == [(0, 7)]
  {
    var retained := Planner.RetainedRevisions(inv, Planner.KeysOfSelected(selected), {});
    assert retained == {};
    TakesTheOnly((0, 7), Planner.FreeRevisions(inv, retained, None), MAX_CLEANUP_ITEMS - |selected|, Planner.LowerKey);
  }

  lemma ExampleStoreIsSound()
    ensures Sound(StoreWithOldRevision()) && Lists(StoreWithOldRevision(), OldInventory)
    ensures ReservedSet(StoreWithOldRevision(), None) == {}
  {
    var w := StoreWithOldRevision();
    assert FsInv(w.db, w.log[0].fs, w.born);
    NothingIsProtected(OldInventory, []);
  }

  /** The ledger after the publication of the old plan, and the store with the late release. */
  function ExampleWorld(): World {
    Created(Published(StoreWithOldRevision(), 5, [OldRevision]), LateRelease, 11)
  }

  lemma ExampleIsAdmissible()
    ensures Admissible(StoreWithOldRevision(), [OldRevision])
  {
    ExampleStoreIsSound();
  }

  lemma ExampleWorldIsSound()
    ensures Sound(ExampleWorld()) && Lists(ExampleWorld(), LateInventory) && WorldRefs(ExampleWorld())
    ensures ReservedSet(ExampleWorld(), Some(5)) == {}
  {
    var w := Published(StoreWithOldRevision(), 5, [OldRevision]);
    ExampleStoreIsSound();
    ExampleIsAdmissible();
    PublishKeepsInv(StoreWithOldRevision(), 5, [OldRevision]);
    PublishMovesNothing(StoreWithOldRevision(), 5, [OldRevision]);
    CreateKeepsInv(w, LateRelease, 11);
    NothingStartsMoving(w, ExampleWorld());
    NothingIsProtected(LateInventory, []);
    assert Planner.AsArtifact(LateInventory.releases[0]) == LateRelease;
    assert Planner.InInventory(LateInventory, LateRelease);
  }

  /** The planner itself produces both plans. */
  lemma ExampleIsPlanned()
    ensures Admits(StoreWithOldRevision(), OldInventory, NoRecords, Confirmed(Planner.Plan([OldRevision], {}, {}, {})))
    ensures CanResume(ExampleWorld(), LateInventory, NoRecords, 5)
    ensures Planner.IsPlan(LateInventory, RecordsNow(ExampleWorld(), NoRecords, Some(5)), None,
                           Planner.Plan([LateRelease, OldRevision], {}, {}, {}))
  {
    var before, after := Planner.Plan([OldRevision], {}, {}, {}), Planner.Plan([LateRelease, OldRevision], {}, {}, {});
    PlansOfExample();
    NothingIsProtected(OldInventory, [OldRevision]);
    NothingIsProtected(LateInventory, [LateRelease, OldRevision]);
    ExampleStoreIsSound();
    ExampleWorldIsSound();
    assert Planner.BlockedBy(before) == Planner.BlockedBy(after) == Planner.Blocked({}, {}, {});
    assert RecordsNow(StoreWithOldRevision(), NoRecords, None) == NoRecords;
    assert RecordsNow(ExampleWorld(), NoRecords, Some(5)) == NoRecords;
    assert Planner.IsPlan(OldInventory, NoRecords, None, before);
    assert Grants(OldInventory, NoRecords, Confirmed(before), before);
  }

  /** In the example the revision goes, whatever else is eligible with it. */
  lemma ExampleOutcome(w: World, p: Planner.Plan)
    requires Inv(w) && ApplyFrame(ExampleWorld(), w, 5) && w.db[5].retired
    requires OldRevision in p.candidates && EndsByPlan(ExampleWorld(), w, NoRecords, 5, None, p, 0)
    ensures LateRelease in Visible(w).canonical && OldRevision !in Visible(w).canonical
  {
    assert w.db[5].items[0] == Detached;
    VisibleHolds(w, 5);
  }

  /** A plan is published for a revision that nothing names; then a release naming it is
      published, although the revision is reserved. The resumed run, whose fresh plan now
      offers both, detaches the revision and keeps the release. */
  method LateReleaseLosesRevision() returns (w: World)
    ensures Admits(StoreWithOldRevision(), OldInventory, NoRecords, Confirmed(Planner.Plan([OldRevision], {}, {}, {})))
    ensures Sound(ExampleWorld()) && WorldRefs(ExampleWorld()) && Lists(ExampleWorld(), LateInventory)
    ensures Planner.IsPlan(LateInventory, RecordsNow(ExampleWorld(), NoRecords, Some(5)), None,
                           Planner.Plan([LateRelease, OldRevision], {}, {}, {}))
    ensures Inv(w) && LateRelease in Visible(w).canonical && OldRevision !in Visible(w).canonical
  {
    var plan := Planner.Plan([LateRelease, OldRevision], {}, {}, {});
    ExampleWorldIsSound();
    ExampleIsPlanned();
    var resumed;
    w, resumed := Resume(ExampleWorld(), LateInventory, NoRecords, 5, None, []);
    ExampleOutcome(w, plan);
  }
}
