/** Repeated cleanup never erodes what is protected: after any part of any plan is
    removed, planning again protects exactly the same releases and revisions and
    finds every reference it needs. */
module PlannerStability {
  import opened Artifacts
  import opened Retention
  import opened Sorting
  import opened Protection
  import opened Planner

  // ---------- Removing part of a plan ----------

  function RemainingReleases(s: seq<ReleaseItem>, removed: set<Artifact>): (r: seq<ReleaseItem>)
    ensures forall x :: x in r <==> x in s && AsArtifact(x) !in removed
  {
    if s == [] then []
    else
      var t := RemainingReleases(s[1..], removed);
      if AsArtifact(s[0]) in removed then t else [s[0]] + t
  }

  function RemainingRevisions(s: seq<Key>, removed: set<Artifact>): (r: seq<Key>)
    ensures forall x :: x in r <==> x in s && RevisionArtifact(x) !in removed
  {
    if s == [] then []
    else
      var t := RemainingRevisions(s[1..], removed);
      if RevisionArtifact(s[0]) in removed then t else [s[0]] + t
  }

  function RemainingTemps(s: seq<Artifact>, removed: set<Artifact>): (r: seq<Artifact>)
    ensures forall x :: x in r <==> x in s && x !in removed
  {
    if s == [] then []
    else
      var t := RemainingTemps(s[1..], removed);
      if s[0] in removed then t else [s[0]] + t
  }

  function Without(inv: Inventory, removed: set<Artifact>): Inventory {
    Inventory(inv.apps, RemainingReleases(inv.releases, removed), RemainingRevisions(inv.revisions, removed), RemainingTemps(inv.temps, removed))
  }

  /** `removed` touches nothing protected and only what was in the store. */
  ghost predicate Removable(inv: Inventory, rec: Records, removed: set<Artifact>) {
    && (forall k: Key, rev :: Release(k.0, k.1, rev) in removed ==> !ReleaseProtected(inv, rec, k))
    && (forall k :: RevisionArtifact(k) in removed ==> !RevisionProtected(inv, rec, k))
  }

  /** Any part of a plan is removable. */
  lemma PartOfPlanIsRemovable(inv: Inventory, rec: Records, b: Blocked, automatic: Option<Uuid>, removed: set<Artifact>)
    requires InventoryOk(inv) && Blocks(inv, rec, b)
    requires forall a :: a in removed ==> a in Candidates(inv, b, automatic)
    ensures Removable(inv, rec, removed)
  {
    PlanIsSafe(inv, b, automatic);
    forall k: Key, rev | Release(k.0, k.1, rev) in removed
      ensures !ReleaseProtected(inv, rec, k)
    {
      assert !IsBlocked(b, Release(k.0, k.1, rev));
    }
    forall k: Key | RevisionArtifact(k) in removed
      ensures !RevisionProtected(inv, rec, k)
    {
      assert !IsBlocked(b, RevisionArtifact(k));
    }
  }

  /** A protected release is still there. */
  lemma ProtectedReleaseRemains(inv: Inventory, rec: Records, removed: set<Artifact>, k: Key)
    requires Removable(inv, rec, removed) && ReleaseProtected(inv, rec, k) && k in ValidReleases(inv)
    ensures k in ValidReleases(Without(inv, removed))
  {
  }

  lemma FewerReleases(inv: Inventory, removed: set<Artifact>, k: Key)
    requires k in ValidReleases(Without(inv, removed))
    ensures k in ValidReleases(inv)
  {
  }

  /** The releases of one application that are still there. */
  function Alive(inv: Inventory, app: Uuid): set<Uuid> {
    set r | r in inv.releases && r.app == app :: r.id
  }

  lemma AliveIsValid(inv: Inventory, app: Uuid, id: Uuid)
    ensures id in Alive(inv, app) <==> (app, id) in ValidReleases(inv)
  {
  }

  // ---------- The policy ----------

  function SurvivingSuccesses(s: seq<Success>, alive: set<Uuid>): seq<Success> {
    if s == [] then []
    else
      var t := SurvivingSuccesses(s[1..], alive);
      if s[0].release in alive then [s[0]] + t else t
  }

  lemma {:induction false} SurvivingAppend(s: seq<Success>, x: Success, alive: set<Uuid>)
    ensures SurvivingSuccesses(s + [x], alive) == SurvivingSuccesses(s, alive) + (if x.release in alive then [x] else [])
  {
    if s == [] {
      assert s + [x] == [x];
    } else {
      SurvivingAppend(s[1..], x, alive);
      assert (s + [x])[1..] == s[1..] + [x];
    }
  }

  lemma {:induction false} SuccessesSurvive(inv: Inventory, removed: set<Artifact>, rows: seq<Deployment>, app: Uuid)
    ensures var inv' := Without(inv, removed);
            Successes(rows, app, ValidReleases(inv')) == SurvivingSuccesses(Successes(rows, app, ValidReleases(inv)), Alive(inv', app))
  {
    if rows != [] {
      var d, inv' := rows[|rows| - 1], Without(inv, removed);
      SuccessesSurvive(inv, removed, rows[..|rows| - 1], app);
      if CountsAsSuccess(d, app) && d.completedAt.Some? && d.candidate.Some? {
        var id := d.candidate.value;
        AliveIsValid(inv', app, id);
        if (app, id) in ValidReleases(inv') { FewerReleases(inv, removed, (app, id)); }
        SurvivingAppend(Successes(rows[..|rows| - 1], app, ValidReleases(inv)), Success(d.completedAt.value, d.id, id), Alive(inv', app));
      }
    }
  }

  lemma NewerFirstIsTotal()
    ensures TotalOrder(NewerFirst)
  {
  }

  lemma {:induction false} SurvivorsAreElements(s: seq<Success>, alive: set<Uuid>)
    ensures forall x :: x in SurvivingSuccesses(s, alive) ==> x in s
  {
    if s != [] {
      SurvivorsAreElements(s[1..], alive);
    }
  }

  lemma {:induction false} InsertSurvives(x: Success, s: seq<Success>, alive: set<Uuid>)
    requires Sorted(s, NewerFirst)
    ensures SurvivingSuccesses(Insert(x, s, NewerFirst), alive) ==
            if x.release in alive then Insert(x, SurvivingSuccesses(s, alive), NewerFirst) else SurvivingSuccesses(s, alive)
  {
    if s == [] {
      assert Insert(x, s, NewerFirst) == [x];
    } else if NewerFirst(x, s[0]) {
      var t := SurvivingSuccesses(s, alive);
      SurvivorsAreElements(s, alive);
      assert ([x] + s)[1..] == s;
      assert t != [] ==> t[0] in s;
    } else {
      InsertSurvives(x, s[1..], alive);
      var t := SurvivingSuccesses(s[1..], alive);
      assert ([s[0]] + Insert(x, s[1..], NewerFirst))[1..] == Insert(x, s[1..], NewerFirst);
      assert ([s[0]] + t)[1..] == t;
    }
  }

  /** Sorting and forgetting commute. */
  lemma {:induction false} SortSurvives(s: seq<Success>, alive: set<Uuid>)
    ensures SurvivingSuccesses(Sort(s, NewerFirst), alive) == Sort(SurvivingSuccesses(s, alive), NewerFirst)
  {
    if s != [] {
      SortSurvives(s[1..], alive);
      NewerFirstIsTotal();
      SortSorts(s[1..], NewerFirst);
      InsertSurvives(s[0], Sort(s[1..], NewerFirst), alive);
      assert s[0].release in alive ==> ([s[0]] + SurvivingSuccesses(s[1..], alive))[1..] == SurvivingSuccesses(s[1..], alive);
    }
  }

  lemma {:induction false} ReleasesSurvive(s: seq<Success>, alive: set<Uuid>)
    ensures ReleasesOf(SurvivingSuccesses(s, alive)) == Surviving(ReleasesOf(s), alive)
  {
    if s != [] {
      var n := |s| - 1;
      assert s == s[..n] + [s[n]];
      SurvivingAppend(s[..n], s[n], alive);
      ReleasesSurvive(s[..n], alive);
      assert ReleasesOf(s)[..n] == ReleasesOf(s[..n]);
    }
  }

  /** What a policy keeps is unchanged. */
  lemma PolicyIsStable(inv: Inventory, rec: Records, rec': Records, removed: set<Artifact>, app: Uuid)
    requires Removable(inv, rec, removed) && ProtectedPresent(inv, rec) && rec' == rec.(reserved := rec'.reserved)
    ensures PolicyKeeps(Without(inv, removed), rec', app) == PolicyKeeps(inv, rec, app)
  {
    if app in rec.policies && app !in rec.unregistered {
      var inv' := Without(inv, removed);
      var s, alive := Successes(rec.deployments, app, ValidReleases(inv)), Alive(inv', app);
      SuccessesSurvive(inv, removed, rec.deployments, app);
      SortSurvives(s, alive);
      ReleasesSurvive(Sort(s, NewerFirst), alive);
      forall id | id in PolicyKeeps(inv, rec, app)
        ensures id in alive
      {
        assert ReleaseReason(inv, rec, rec.deployments, (app, id), RecentRollback);
        ProtectedReleaseRemains(inv, rec, removed, (app, id));
        AliveIsValid(inv', app, id);
      }
      RetainSurvives(ActiveReleases(inv, app), rec.policies[app], ReleasesOf(Sort(s, NewerFirst)), alive);
      assert ActiveReleases(inv', app) == ActiveReleases(inv, app);
    }
  }

  // ---------- The rollback window ----------

  lemma {:induction false} SurvivingUuidsAppend(s: seq<Uuid>, x: Uuid, alive: set<Uuid>)
    ensures Surviving(s + [x], alive) == Surviving(s, alive) + (if x in alive then [x] else [])
  {
  }

  lemma {:induction false} WindowCandidatesSurvive(inv: Inventory, removed: set<Artifact>, rows: seq<Deployment>, app: Uuid)
    ensures var inv' := Without(inv, removed);
            RecentCandidates(inv', rows, app) == Surviving(RecentCandidates(inv, rows, app), Alive(inv', app))
  {
    if rows != [] {
      var d, inv' := rows[|rows| - 1], Without(inv, removed);
      WindowCandidatesSurvive(inv, removed, rows[..|rows| - 1], app);
      if d.candidate.Some? {
        var id := d.candidate.value;
        AliveIsValid(inv', app, id);
        if (app, id) in ValidReleases(inv') { FewerReleases(inv, removed, (app, id)); }
        assert IsActive(inv', (app, id)) <==> IsActive(inv, (app, id));
        assert IsPending(inv', (app, id)) <==> IsPending(inv, (app, id));
        SurvivingUuidsAppend(RecentCandidates(inv, rows[..|rows| - 1], app), id, Alive(inv', app));
      }
    }
  }

  /** What the window keeps is unchanged. */
  lemma WindowIsStable(inv: Inventory, rec: Records, rec': Records, removed: set<Artifact>, app: Uuid)
    requires Removable(inv, rec, removed) && ProtectedPresent(inv, rec) && rec' == rec.(reserved := rec'.reserved)
    ensures WindowKeeps(Without(inv, removed), rec', rec.deployments, app) == WindowKeeps(inv, rec, rec.deployments, app)
  {
    if app !in rec.policies && app !in rec.unregistered {
      var inv' := Without(inv, removed);
      var alive := Alive(inv', app);
      WindowCandidatesSurvive(inv, removed, rec.deployments, app);
      forall id | id in WindowKeeps(inv, rec, rec.deployments, app)
        ensures id in alive
      {
        assert ReleaseReason(inv, rec, rec.deployments, (app, id), RecentRollback);
        ProtectedReleaseRemains(inv, rec, removed, (app, id));
        AliveIsValid(inv', app, id);
      }
      RetainSurvives({}, RECENT_ROLLBACK_RELEASES, RecentCandidates(inv, rec.deployments, app), alive);
    }
  }

  // ---------- Stability ----------

  ghost predicate SameProtection(inv: Inventory, inv': Inventory, rec: Records, rec': Records) {
    && (forall k, reason :: ReleaseReason(inv', rec', rec'.deployments, k, reason) <==> ReleaseReason(inv, rec, rec.deployments, k, reason))
    && (forall k, reason :: RevisionReason(inv', rec', rec'.deployments, k, reason) <==> RevisionReason(inv, rec, rec.deployments, k, reason))
  }

  lemma RecoveryIsStable(rec: Records, rec': Records, k: Key)
    requires rec' == rec.(reserved := rec'.reserved)
    ensures RecoversRelease(rec', rec.deployments, k) <==> RecoversRelease(rec, rec.deployments, k)
    ensures RecoversRevision(rec', rec.deployments, k) <==> RecoversRevision(rec, rec.deployments, k)
  {
  }

  lemma ReasonsAreStable(inv: Inventory, rec: Records, rec': Records, removed: set<Artifact>)
    requires Removable(inv, rec, removed) && ProtectedPresent(inv, rec) && rec' == rec.(reserved := rec'.reserved)
    ensures SameProtection(inv, Without(inv, removed), rec, rec')
  {
    var inv' := Without(inv, removed);
    forall k: Key, reason
      ensures ReleaseReason(inv', rec', rec.deployments, k, reason) <==> ReleaseReason(inv, rec, rec.deployments, k, reason)
      ensures RevisionReason(inv', rec', rec.deployments, k, reason) <==> RevisionReason(inv, rec, rec.deployments, k, reason)
    {
      PolicyIsStable(inv, rec, rec', removed, k.0);
      WindowIsStable(inv, rec, rec', removed, k.0);
      RecoveryIsStable(rec, rec', k);
      assert IsActive(inv', k) <==> IsActive(inv, k);
      assert IsPending(inv', k) <==> IsPending(inv, k);
      assert IsDraft(inv', k) <==> IsDraft(inv, k);
    }
  }

  /** No recovery reference goes missing. */
  lemma ReferencesRemain(inv: Inventory, rec: Records, rec': Records, removed: set<Artifact>, d: Deployment)
    requires Removable(inv, rec, removed) && ProtectedPresent(inv, rec) && rec' == rec.(reserved := rec'.reserved)
    requires d in rec.deployments && !MissingReference(inv, rec, d)
    ensures !MissingReference(Without(inv, removed), rec', d)
  {
    var inv' := Without(inv, removed);
    if Recovers(rec, d) {
      assert RevisionReason(inv, rec, rec.deployments, (d.app, d.requested), DeploymentRecovery);
      assert RevisionProtected(inv, rec, (d.app, d.requested));
      assert (d.app, d.requested) in inv'.revisions;
      forall x | x in References(d) && x.Some?
        ensures (d.app, x.value) in ValidReleases(inv')
      {
        assert ReleaseReason(inv, rec, rec.deployments, (d.app, x.value), DeploymentRecovery);
        ProtectedReleaseRemains(inv, rec, removed, (d.app, x.value));
      }
    }
  }

  lemma ConsistencyRemains(inv: Inventory, rec: Records, rec': Records, removed: set<Artifact>)
    requires Removable(inv, rec, removed) && Plannable(inv, rec) && rec' == rec.(reserved := rec'.reserved)
    ensures Consistent(Without(inv, removed), rec')
  {
    forall d | d in rec'.deployments
      ensures !BadSuccess(rec', d) && !BadUnregistered(rec', d) && !MissingReference(Without(inv, removed), rec', d)
    {
      assert !BadSuccess(rec, d) && !BadUnregistered(rec, d);
      ReferencesRemain(inv, rec, rec', removed, d);
    }
  }

  lemma PresenceRemains(inv: Inventory, rec: Records, rec': Records, removed: set<Artifact>, k: Key)
    requires Removable(inv, rec, removed) && Plannable(inv, rec) && rec' == rec.(reserved := rec'.reserved)
    requires SameProtection(inv, Without(inv, removed), rec, rec')
    ensures (exists reason :: ReleaseReason(Without(inv, removed), rec', rec'.deployments, k, reason)) ==>
              k in ValidReleases(Without(inv, removed))
    ensures (exists reason :: RevisionReason(Without(inv, removed), rec', rec'.deployments, k, reason)) ==>
              k in Without(inv, removed).revisions
  {
    if reason :| ReleaseReason(Without(inv, removed), rec', rec'.deployments, k, reason) {
      assert ReleaseReason(inv, rec, rec.deployments, k, reason);
      ProtectedReleaseRemains(inv, rec, removed, k);
    }
    if reason :| RevisionReason(Without(inv, removed), rec', rec'.deployments, k, reason) {
      assert RevisionReason(inv, rec, rec.deployments, k, reason);
      assert RevisionProtected(inv, rec, k);
    }
  }

  /** Planner stability. After removing any part of a plan, whatever is reserved by then,
      the same releases and revisions are protected for the same reasons, the records
      stay consistent, and planning succeeds exactly if what is reserved is present. */
  lemma Stability(inv: Inventory, rec: Records, b: Blocked, automatic: Option<Uuid>, removed: set<Artifact>, rec': Records)
    requires InventoryOk(inv) && Plannable(inv, rec) && Blocks(inv, rec, b)
    requires forall a :: a in removed ==> a in Candidates(inv, b, automatic)
    requires rec' == rec.(reserved := rec'.reserved)
    ensures SameProtection(inv, Without(inv, removed), rec, rec')
    ensures Consistent(Without(inv, removed), rec')
    ensures Plannable(Without(inv, removed), rec') <==>
            && (forall k :: ReservedRelease(rec', k) ==> k in ValidReleases(Without(inv, removed)))
            && (forall a :: a in rec'.reserved && !a.Release? ==> InInventory(Without(inv, removed), a))
  {
    var inv' := Without(inv, removed);
    PartOfPlanIsRemovable(inv, rec, b, automatic, removed);
    ReasonsAreStable(inv, rec, rec', removed);
    ConsistencyRemains(inv, rec, rec', removed);
    forall k: Key
      ensures (exists reason :: ReleaseReason(inv', rec', rec'.deployments, k, reason)) ==> k in ValidReleases(inv')
      ensures (exists reason :: RevisionReason(inv', rec', rec'.deployments, k, reason)) ==> k in inv'.revisions
    {
      PresenceRemains(inv, rec, rec', removed, k);
    }
    if ProtectedPresent(inv', rec') {
      forall a | a in rec'.reserved && !a.Release?
        ensures InInventory(inv', a)
      {
        if a.ConfigRevision? {
          assert RevisionProtected(inv', rec', (a.app, a.id));
        }
      }
      forall k: Key | ReservedRelease(rec', k)
        ensures k in ValidReleases(inv')
      {
        assert ReleaseProtected(inv', rec', k);
      }
    }
  }

  // ---------- Any number of rounds ----------

  /** One round of cleanup: what was reserved when it was planned, its scope, what it
      protected, and the part of its plan that it removed. */
  datatype Round = Round(reserved: set<Artifact>, automatic: Option<Uuid>, blocked: Blocked, removed: set<Artifact>)

  function AfterRounds(inv: Inventory, rounds: seq<Round>): Inventory {
    if rounds == [] then inv else Without(AfterRounds(inv, rounds[..|rounds| - 1]), rounds[|rounds| - 1].removed)
  }

  ghost predicate PlannedRounds(inv: Inventory, rec: Records, rounds: seq<Round>) {
    rounds != [] ==>
      var r, now := rounds[|rounds| - 1], AfterRounds(inv, rounds[..|rounds| - 1]);
      var rec' := rec.(reserved := r.reserved);
      && PlannedRounds(inv, rec, rounds[..|rounds| - 1])
      && Plannable(now, rec') && Blocks(now, rec', r.blocked)
      && (forall a :: a in r.removed ==> a in Candidates(now, r.blocked, r.automatic))
  }

  lemma {:induction false} RemainingReleasesDistinct(s: seq<ReleaseItem>, removed: set<Artifact>)
    requires DistinctKeys(s)
    ensures DistinctKeys(RemainingReleases(s, removed))
  {
    if s != [] {
      RemainingReleasesDistinct(s[1..], removed);
      var t := RemainingReleases(s[1..], removed);
      forall j | 0 <= j < |t|
        ensures ReleaseKey(t[j]) != ReleaseKey(s[0])
      {
        assert t[j] in s[1..];
        var i :| 0 <= i < |s| - 1 && s[1..][i] == t[j];
        assert ReleaseKey(s[i + 1]) != ReleaseKey(s[0]);
      }
    }
  }

  lemma {:induction false} RemainingRevisionsDistinct(s: seq<Key>, removed: set<Artifact>)
    requires NoDuplicates(s)
    ensures NoDuplicates(RemainingRevisions(s, removed))
  {
    if s != [] {
      RemainingRevisionsDistinct(s[1..], removed);
      var t := RemainingRevisions(s[1..], removed);
      assert forall j :: 0 <= j < |t| ==> t[j] in s[1..];
    }
  }

  lemma {:induction false} RemainingTempsDistinct(s: seq<Artifact>, removed: set<Artifact>)
    requires NoDuplicates(s)
    ensures NoDuplicates(RemainingTemps(s, removed))
  {
    if s != [] {
      RemainingTempsDistinct(s[1..], removed);
      var t := RemainingTemps(s[1..], removed);
      assert forall j :: 0 <= j < |t| ==> t[j] in s[1..];
    }
  }

  lemma {:induction false} RoundsKeepInventory(inv: Inventory, rounds: seq<Round>)
    requires InventoryOk(inv)
    ensures InventoryOk(AfterRounds(inv, rounds))
  {
    if rounds != [] {
      var now, removed := AfterRounds(inv, rounds[..|rounds| - 1]), rounds[|rounds| - 1].removed;
      RoundsKeepInventory(inv, rounds[..|rounds| - 1]);
      RemainingReleasesDistinct(now.releases, removed);
      RemainingRevisionsDistinct(now.revisions, removed);
      RemainingTempsDistinct(now.temps, removed);
    }
  }

  /** However many rounds of cleanup ran, manual or automatic, complete or partial, the
      protected releases and revisions are the original ones and no reference is missing. */
  lemma {:induction false} RepeatedCleanupErodesNothing(inv: Inventory, rec: Records, rounds: seq<Round>, rec': Records)
    requires InventoryOk(inv) && Consistent(inv, rec) && PlannedRounds(inv, rec, rounds)
    requires rec' == rec.(reserved := rec'.reserved)
    ensures SameProtection(inv, AfterRounds(inv, rounds), rec, rec')
    ensures Consistent(AfterRounds(inv, rounds), rec')
  {
    if rounds == [] {
      SameRecords(inv, rec, rec');
    } else {
      var front, r := rounds[..|rounds| - 1], rounds[|rounds| - 1];
      var now, rec1 := AfterRounds(inv, front), rec.(reserved := r.reserved);
      RepeatedCleanupErodesNothing(inv, rec, front, rec1);
      RoundsKeepInventory(inv, front);
      Stability(now, rec1, r.blocked, r.automatic, r.removed, rec');
      SameProtectionComposes(inv, now, AfterRounds(inv, rounds), rec, rec1, rec');
    }
  }

  lemma SameProtectionComposes(inv: Inventory, inv1: Inventory, inv2: Inventory, rec: Records, rec1: Records, rec2: Records)
    requires SameProtection(inv, inv1, rec, rec1) && SameProtection(inv1, inv2, rec1, rec2)
    ensures SameProtection(inv, inv2, rec, rec2)
  {
  }

  /** Reservations protect nothing for any of the other reasons. */
  lemma SameRecords(inv: Inventory, rec: Records, rec': Records)
    requires rec' == rec.(reserved := rec'.reserved)
    ensures SameProtection(inv, inv, rec, rec')
    ensures Consistent(inv, rec) ==> Consistent(inv, rec')
  {
  }
}
