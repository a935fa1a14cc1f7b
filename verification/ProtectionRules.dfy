/** The protection rules in the terms of the database rows: which deployments count, which
    of them are the newest, what an unfinished deployment refers to, and what that means
    for a plan. */
module ProtectionRules {
  import opened Artifacts
  import opened Retention
  import opened Sorting
  import opened Protection
  import Planner

  // ---------- Keeping the first distinct elements ----------

  lemma {:induction false} KeptIsSeen(start: set<Uuid>, keep: nat, s: seq<Uuid>)
    ensures forall x :: x in Retain(start, keep, s) ==> x in start || x in s
    ensures |Retain(start, keep, s)| < keep ==> forall x :: x in s ==> x in Retain(start, keep, s)
  {
    if s != [] {
      KeptIsSeen(start, keep, s[..|s| - 1]);
      assert s == s[..|s| - 1] + [s[|s| - 1]];
    }
  }

  /** Whatever is kept appears before every occurrence of what is not. */
  lemma {:induction false} KeptComesFirst(start: set<Uuid>, keep: nat, s: seq<Uuid>, x: Uuid, y: Uuid) returns (i: nat)
    requires x in Retain(start, keep, s) && x !in start && y !in Retain(start, keep, s)
    ensures i < |s| && s[i] == x
    ensures forall j :: 0 <= j < |s| && s[j] == y ==> i < j
  {
    var n := |s| - 1;
    var t := s[..n];
    KeptIsSeen(start, keep, t);
    if x in Retain(start, keep, t) {
      i := KeptComesFirst(start, keep, t, x, y);
    } else {
      i := n;
      assert forall j :: 0 <= j < n ==> s[j] == t[j] && t[j] in t;
    }
  }

  // ---------- Policies ----------

  /** Deployment `d` is a finished success of release `id` of `app`, which is in the store. */
  ghost predicate IsSuccessOf(inv: Inventory, d: Deployment, app: Uuid, id: Uuid) {
    && d.app == app && d.status == Succeeded && d.terminal && d.completedAt.Some? && d.candidate == Some(id)
    && exists r :: r in inv.releases && r.app == app && r.id == id
  }

  /** Deployment `d` completed after `e`; the identifier decides between equal times. */
  ghost predicate NotBefore(d: Deployment, e: Deployment)
    requires d.completedAt.Some? && e.completedAt.Some?
  {
    d.completedAt.value > e.completedAt.value || (d.completedAt.value == e.completedAt.value && d.id >= e.id)
  }

  ghost predicate IsActiveOf(inv: Inventory, app: Uuid, id: Uuid) {
    exists a :: a in inv.apps && a.id == app && a.active == Some(id)
  }

  lemma {:induction false} SuccessesAreRows(inv: Inventory, rows: seq<Deployment>, app: Uuid)
    ensures forall x :: x in Successes(rows, app, ValidReleases(inv)) <==>
              exists d :: d in rows && IsSuccessOf(inv, d, app, x.release) && x == Success(d.completedAt.value, d.id, x.release)
  {
    if rows != [] {
      var n := |rows| - 1;
      var d := rows[n];
      assert rows == rows[..n] + [d];
      SuccessesAreRows(inv, rows[..n], app);
      assert d.candidate.Some? ==> ((app, d.candidate.value) in ValidReleases(inv) <==>
          exists r :: r in inv.releases && r.app == app && r.id == d.candidate.value);
    }
  }

  /** The sorted releases of a policy: every occurrence of a release is a success of it, and
      nothing comes before what is newer. */
  lemma SortedSuccesses(inv: Inventory, rec: Records, app: Uuid)
    ensures var s := Sort(Successes(rec.deployments, app, ValidReleases(inv)), NewerFirst);
            && (forall i, j :: 0 <= i < j < |s| ==> s[i].at > s[j].at || (s[i].at == s[j].at && s[i].id >= s[j].id))
            && (forall x :: x in s <==>
                  exists d :: d in rec.deployments && IsSuccessOf(inv, d, app, x.release) && x == Success(d.completedAt.value, d.id, x.release))
  {
    var successes := Successes(rec.deployments, app, ValidReleases(inv));
    assert TotalOrder(NewerFirst);
    SortSorts(successes, NewerFirst);
    SortPermutes(successes, NewerFirst);
    SuccessesAreRows(inv, rec.deployments, app);
  }

  /** What a policy that keeps `n` versions keeps of an application: the active release, and
      of the others the newest successes up to `n` versions. */
  ghost predicate KeepsNewest(inv: Inventory, rec: Records, app: Uuid, n: nat, keeps: set<Uuid>) {
    && (forall id :: IsActiveOf(inv, app, id) ==> id in keeps)
    && (forall id :: id in keeps ==> IsActiveOf(inv, app, id) || exists d :: d in rec.deployments && IsSuccessOf(inv, d, app, id))
    && (|keeps| <= n || forall id :: id in keeps ==> IsActiveOf(inv, app, id))
    && (forall id, d :: d in rec.deployments && IsSuccessOf(inv, d, app, id) && id !in keeps ==> |keeps| >= n)
    && (forall id, other :: id in keeps && !IsActiveOf(inv, app, id) && other !in keeps ==> IsNewer(inv, rec, app, id, other))
  }

  /** Some success of `id` is not before any success of `other`. */
  ghost predicate IsNewer(inv: Inventory, rec: Records, app: Uuid, id: Uuid, other: Uuid) {
    exists d :: d in rec.deployments && IsSuccessOf(inv, d, app, id) &&
      forall e :: e in rec.deployments && IsSuccessOf(inv, e, app, other) ==> NotBefore(d, e)
  }

  lemma ActiveIsActive(inv: Inventory, app: Uuid, id: Uuid)
    ensures id in ActiveReleases(inv, app) <==> IsActiveOf(inv, app, id)
  {
  }

  lemma KeptIsNewer(inv: Inventory, rec: Records, app: Uuid, id: Uuid, other: Uuid)
    requires app in rec.policies && app !in rec.unregistered
    requires id in PolicyKeeps(inv, rec, app) && !IsActiveOf(inv, app, id) && other !in PolicyKeeps(inv, rec, app)
    ensures IsNewer(inv, rec, app, id, other)
  {
    var s := Sort(Successes(rec.deployments, app, ValidReleases(inv)), NewerFirst);
    SortedSuccesses(inv, rec, app);
    ActiveIsActive(inv, app, id);
    var i := KeptComesFirst(ActiveReleases(inv, app), rec.policies[app], ReleasesOf(s), id, other);
    assert s[i] in s;
    var d :| d in rec.deployments && IsSuccessOf(inv, d, app, id) && s[i] == Success(d.completedAt.value, d.id, id);
    forall e | e in rec.deployments && IsSuccessOf(inv, e, app, other)
      ensures NotBefore(d, e)
    {
      assert Success(e.completedAt.value, e.id, other) in s;
      var j :| 0 <= j < |s| && s[j] == Success(e.completedAt.value, e.id, other);
      assert ReleasesOf(s)[j] == other;
    }
  }

  /** A success that is not kept means that the policy keeps as many versions as it may. */
  lemma KeepsEnough(inv: Inventory, rec: Records, app: Uuid, id: Uuid, d: Deployment)
    requires app in rec.policies && app !in rec.unregistered
    requires d in rec.deployments && IsSuccessOf(inv, d, app, id) && id !in PolicyKeeps(inv, rec, app)
    ensures |PolicyKeeps(inv, rec, app)| >= rec.policies[app]
  {
    var s := Sort(Successes(rec.deployments, app, ValidReleases(inv)), NewerFirst);
    SortedSuccesses(inv, rec, app);
    KeptIsSeen(ActiveReleases(inv, app), rec.policies[app], ReleasesOf(s));
    assert Success(d.completedAt.value, d.id, id) in s;
    var i :| 0 <= i < |s| && s[i] == Success(d.completedAt.value, d.id, id);
    assert ReleasesOf(s)[i] == id;
  }

  /** Only the active release and successes are kept, and no more than the policy allows. */
  lemma KeepsOnly(inv: Inventory, rec: Records, app: Uuid)
    requires app in rec.policies && app !in rec.unregistered
    ensures var keeps := PolicyKeeps(inv, rec, app);
            && (forall id :: IsActiveOf(inv, app, id) ==> id in keeps)
            && (forall id :: id in keeps ==> IsActiveOf(inv, app, id) || exists d :: d in rec.deployments && IsSuccessOf(inv, d, app, id))
            && (|keeps| <= rec.policies[app] || forall id :: id in keeps ==> IsActiveOf(inv, app, id))
  {
    var s := Sort(Successes(rec.deployments, app, ValidReleases(inv)), NewerFirst);
    var active, keeps, n := ActiveReleases(inv, app), PolicyKeeps(inv, rec, app), rec.policies[app];
    SortedSuccesses(inv, rec, app);
    KeptIsSeen(active, n, ReleasesOf(s));
    RetainIsFirstDistinct(active, n, ReleasesOf(s));
    forall id
      ensures id in active <==> IsActiveOf(inv, app, id)
    {
      ActiveIsActive(inv, app, id);
    }
    forall id | id in keeps && id !in active
      ensures exists d :: d in rec.deployments && IsSuccessOf(inv, d, app, id)
    {
      var i :| 0 <= i < |s| && ReleasesOf(s)[i] == id;
      assert s[i] in s;
    }
  }

  /** The policy rule, for every inventory and all records. */
  lemma PolicyMeaning(inv: Inventory, rec: Records, app: Uuid)
    ensures app in rec.policies && app !in rec.unregistered ==> KeepsNewest(inv, rec, app, rec.policies[app], PolicyKeeps(inv, rec, app))
    ensures app !in rec.policies || app in rec.unregistered ==> PolicyKeeps(inv, rec, app) == {}
  {
    if app in rec.policies && app !in rec.unregistered {
      KeepsOnly(inv, rec, app);
      forall id, d | d in rec.deployments && IsSuccessOf(inv, d, app, id) && id !in PolicyKeeps(inv, rec, app)
        ensures |PolicyKeeps(inv, rec, app)| >= rec.policies[app]
      {
        KeepsEnough(inv, rec, app, id, d);
      }
      forall id, other | id in PolicyKeeps(inv, rec, app) && !IsActiveOf(inv, app, id) && other !in PolicyKeeps(inv, rec, app)
        ensures IsNewer(inv, rec, app, id, other)
      {
        KeptIsNewer(inv, rec, app, id, other);
      }
    }
  }

  // ---------- The rollback window ----------

  /** Deployment `d` ended, and its candidate `id` is in the store and not in use. */
  ghost predicate IsRecentOf(inv: Inventory, d: Deployment, app: Uuid, id: Uuid) {
    && d.app == app && d.status in {Succeeded, NoOp, DeployFailed, RolledBack} && d.candidate == Some(id)
    && (exists r :: r in inv.releases && r.app == app && r.id == id)
    && forall a :: a in inv.apps && a.id == app ==> a.active != Some(id) && a.pending != Some(id)
  }

  lemma RecentIsRecent(inv: Inventory, d: Deployment, app: Uuid)
    ensures CountsAsRecent(inv, d, app) <==> d.candidate.Some? && IsRecentOf(inv, d, app, d.candidate.value)
  {
    assert d.candidate.Some? ==> ((app, d.candidate.value) in ValidReleases(inv) <==>
        exists r :: r in inv.releases && r.app == app && r.id == d.candidate.value);
  }

  /** Row `d` of candidate `id` joins a window that is not full. */
  ghost predicate Grows(inv: Inventory, d: Deployment, app: Uuid, before: set<Uuid>, keeps: set<Uuid>) {
    && (|before| >= 3 ==> keeps == before)
    && (|before| < 3 && d.candidate.Some? && IsRecentOf(inv, d, app, d.candidate.value) ==> keeps == before + {d.candidate.value})
    && (!(d.candidate.Some? && IsRecentOf(inv, d, app, d.candidate.value)) ==> keeps == before)
  }

  /** What one more row, older than the others, does to the window. */
  lemma OlderRow(inv: Inventory, rec: Records, rows: seq<Deployment>, app: Uuid)
    requires rows != [] && app !in rec.policies && app !in rec.unregistered
    ensures Grows(inv, rows[|rows| - 1], app, WindowKeeps(inv, rec, rows[..|rows| - 1], app), WindowKeeps(inv, rec, rows, app))
  {
    var d := rows[|rows| - 1];
    RecentIsRecent(inv, d, app);
    var s := RecentCandidates(inv, rows[..|rows| - 1], app);
    assert d.candidate.Some? ==> (s + [d.candidate.value])[..|s|] == s;
  }

  /** What the fixed window keeps of an application, where the rows are newest first: the
      first three distinct candidates. */
  ghost predicate KeepsRecent(inv: Inventory, rows: seq<Deployment>, app: Uuid, keeps: set<Uuid>) {
    && |keeps| <= 3
    && (forall id :: id in keeps ==> exists i :: 0 <= i < |rows| && IsRecentOf(inv, rows[i], app, id))
    && (forall id, i :: 0 <= i < |rows| && IsRecentOf(inv, rows[i], app, id) && id !in keeps ==> |keeps| == 3)
    && (forall id, other :: id in keeps && other !in keeps ==> AppearsBefore(inv, rows, app, id, other))
  }

  /** Some row of `id` comes before all rows of `other`. */
  ghost predicate AppearsBefore(inv: Inventory, rows: seq<Deployment>, app: Uuid, id: Uuid, other: Uuid) {
    exists i :: 0 <= i < |rows| && IsRecentOf(inv, rows[i], app, id) &&
      forall j :: 0 <= j < |rows| && IsRecentOf(inv, rows[j], app, other) ==> i < j
  }

  lemma {:induction false} WindowMeaning(inv: Inventory, rec: Records, rows: seq<Deployment>, app: Uuid)
    ensures app !in rec.policies && app !in rec.unregistered ==> KeepsRecent(inv, rows, app, WindowKeeps(inv, rec, rows, app))
    ensures app in rec.policies || app in rec.unregistered ==> WindowKeeps(inv, rec, rows, app) == {}
  {
    if app !in rec.policies && app !in rec.unregistered {
      if rows == [] {
        EmptyWindow(inv, rec, app);
      } else {
        WindowMeaning(inv, rec, rows[..|rows| - 1], app);
        OlderRow(inv, rec, rows, app);
        WindowGrows(inv, rows, app, WindowKeeps(inv, rec, rows[..|rows| - 1], app), WindowKeeps(inv, rec, rows, app));
      }
    }
  }

  lemma EmptyWindow(inv: Inventory, rec: Records, app: Uuid)
    ensures KeepsRecent(inv, [], app, WindowKeeps(inv, rec, [], app))
  {
  }

  lemma WindowGrows(inv: Inventory, rows: seq<Deployment>, app: Uuid, before: set<Uuid>, keeps: set<Uuid>)
    requires rows != [] && KeepsRecent(inv, rows[..|rows| - 1], app, before) && Grows(inv, rows[|rows| - 1], app, before, keeps)
    ensures KeepsRecent(inv, rows, app, keeps)
  {
    var n := |rows| - 1;
    var t := rows[..n];
    forall id | id in keeps
      ensures exists i :: 0 <= i < |rows| && IsRecentOf(inv, rows[i], app, id)
    {
      if id in before {
        var i :| 0 <= i < n && IsRecentOf(inv, t[i], app, id);
        assert rows[i] == t[i];
      } else {
        assert IsRecentOf(inv, rows[n], app, id);
      }
    }
    forall id, i | 0 <= i < |rows| && IsRecentOf(inv, rows[i], app, id) && id !in keeps
      ensures |keeps| == 3
    {
      assert i < n ==> rows[i] == t[i];
    }
    forall id, other | id in keeps && other !in keeps
      ensures AppearsBefore(inv, rows, app, id, other)
    {
      StillBefore(inv, rows, app, before, keeps, id, other);
    }
  }

  lemma StillBefore(inv: Inventory, rows: seq<Deployment>, app: Uuid, before: set<Uuid>, keeps: set<Uuid>, id: Uuid, other: Uuid)
    requires rows != [] && KeepsRecent(inv, rows[..|rows| - 1], app, before) && Grows(inv, rows[|rows| - 1], app, before, keeps)
    requires id in keeps && other !in keeps
    ensures AppearsBefore(inv, rows, app, id, other)
  {
    var n := |rows| - 1;
    var t, i := rows[..n], n;
    if id in before {
      assert AppearsBefore(inv, t, app, id, other);
      i :| 0 <= i < n && IsRecentOf(inv, t[i], app, id) && forall j :: 0 <= j < n && IsRecentOf(inv, t[j], app, other) ==> i < j;
    }
    assert IsRecentOf(inv, rows[i], app, id);
    forall j | 0 <= j < |rows| && IsRecentOf(inv, rows[j], app, other)
      ensures i < j
    {
      assert j < n ==> rows[j] == t[j];
    }
  }

  // ---------- Unfinished deployments ----------

  /** Deployment `d` of a registered application is unfinished. */
  ghost predicate IsUnfinished(rec: Records, d: Deployment) {
    d.app !in rec.unregistered && d.status in {Queued, Running, Interrupted, NeedsAttention}
  }

  ghost predicate RefersTo(d: Deployment, id: Uuid) {
    d.candidate == Some(id) || exists i :: 0 <= i < |d.others| && d.others[i] == Some(id)
  }

  /** An unfinished deployment protects every release it refers to and its revision, and
      nothing else is protected for this reason. */
  lemma RecoveryMeaning(inv: Inventory, rec: Records, k: Key)
    ensures ReleaseReason(inv, rec, rec.deployments, k, DeploymentRecovery) <==>
            exists d :: d in rec.deployments && IsUnfinished(rec, d) && d.app == k.0 && RefersTo(d, k.1)
    ensures RevisionReason(inv, rec, rec.deployments, k, DeploymentRecovery) <==>
            exists d :: d in rec.deployments && IsUnfinished(rec, d) && d.app == k.0 && d.requested == k.1
  {
    forall d
      ensures Recovers(rec, d) <==> IsUnfinished(rec, d)
      ensures Some(k.1) in References(d) <==> RefersTo(d, k.1)
    {
    }
  }

  /** The row of an unregistered application is finished; a success that a policy counts has
      its completion time; and what an unfinished deployment refers to is in the store. */
  ghost predicate RowIsComplete(inv: Inventory, rec: Records, d: Deployment) {
    if d.app in rec.unregistered then
      d.terminal && d.completedAt.Some? && d.status != Queued && d.status != Running
    else
      && (d.app in rec.policies && d.status == Succeeded && d.terminal ==> d.completedAt.Some?)
      && (IsUnfinished(rec, d) ==>
            && (d.app, d.requested) in inv.revisions
            && forall id :: RefersTo(d, id) ==> exists r :: r in inv.releases && r.app == d.app && r.id == id)
  }

  /** Exactly when the records are accepted. */
  lemma ConsistentMeaning(inv: Inventory, rec: Records)
    ensures Consistent(inv, rec) <==> forall d :: d in rec.deployments ==> RowIsComplete(inv, rec, d)
  {
    forall d
      ensures RowIsComplete(inv, rec, d) <==> !BadSuccess(rec, d) && !BadUnregistered(rec, d) && !MissingReference(inv, rec, d)
    {
      CompleteRow(inv, rec, d);
    }
  }

  lemma CompleteRow(inv: Inventory, rec: Records, d: Deployment)
    ensures RowIsComplete(inv, rec, d) <==> !BadSuccess(rec, d) && !BadUnregistered(rec, d) && !MissingReference(inv, rec, d)
  {
    forall id: Uuid
      ensures RefersTo(d, id) <==> Some(id) in References(d)
      ensures (d.app, id) in ValidReleases(inv) <==> exists r :: r in inv.releases && r.app == d.app && r.id == id
    {
    }
    if Recovers(rec, d) && exists x :: x in References(d) && x.Some? && (d.app, x.value) !in ValidReleases(inv) {
      var x :| x in References(d) && x.Some? && (d.app, x.value) !in ValidReleases(inv);
      assert RefersTo(d, x.value);
    }
  }

  // ---------- What a plan may take ----------

  /** A planned release is expendable: not in use, not what an unfinished deployment refers
      to, not reserved, and not among the newest ones that the policy or the window keeps. */
  lemma PlannedReleaseIsExpendable(inv: Inventory, rec: Records, automatic: Option<Uuid>, p: Planner.Plan, r: Artifact)
    requires Planner.InventoryOk(inv) && Planner.IsPlan(inv, rec, automatic, p) && r in p.candidates && r.Release?
    ensures forall a :: a in inv.apps && a.id == r.app ==> a.active != Some(r.id) && a.pending != Some(r.id)
    ensures forall d :: d in rec.deployments && IsUnfinished(rec, d) && d.app == r.app ==> !RefersTo(d, r.id)
    ensures forall a :: a in rec.reserved && a.Release? ==> (a.app, a.id) != (r.app, r.id)
    ensures r.app in rec.policies && r.app !in rec.unregistered ==>
              exists keeps :: KeepsNewest(inv, rec, r.app, rec.policies[r.app], keeps) && r.id !in keeps
    ensures r.app !in rec.policies && r.app !in rec.unregistered ==>
              exists keeps :: KeepsRecent(inv, rec.deployments, r.app, keeps) && r.id !in keeps
  {
    var b, k := Planner.BlockedBy(p), (r.app, r.id);
    Planner.ProtectionsBlock(inv, rec, p);
    Planner.PlanIsSafe(inv, b, automatic);
    assert !Planner.ReleaseProtected(inv, rec, k);
    assert !ReleaseReason(inv, rec, rec.deployments, k, Active) && !ReleaseReason(inv, rec, rec.deployments, k, Pending);
    assert !ReleaseReason(inv, rec, rec.deployments, k, RecentRollback) && !ReleaseReason(inv, rec, rec.deployments, k, DeploymentRecovery);
    RecoveryMeaning(inv, rec, k);
    PolicyMeaning(inv, rec, r.app);
    WindowMeaning(inv, rec, rec.deployments, r.app);
  }

  /** A planned revision is no draft, no unfinished deployment asked for it, it is not
      reserved, and every release in the store that names it is planned before it. */
  lemma PlannedRevisionIsExpendable(inv: Inventory, rec: Records, automatic: Option<Uuid>, p: Planner.Plan, i: nat)
    requires Planner.InventoryOk(inv) && Planner.IsPlan(inv, rec, automatic, p) && i < |p.candidates| && p.candidates[i].ConfigRevision?
    ensures var v := p.candidates[i];
            && (forall a :: a in inv.apps && a.id == v.app ==> a.draft != Some(v.id))
            && (forall d :: d in rec.deployments && IsUnfinished(rec, d) && d.app == v.app ==> d.requested != v.id)
            && v !in rec.reserved
            && (forall r :: r in inv.releases && r.app == v.app && r.revision == v.id ==> Release(r.app, r.id, r.revision) in p.candidates[..i])
  {
    var b, v := Planner.BlockedBy(p), p.candidates[i];
    Planner.ProtectionsBlock(inv, rec, p);
    Planner.PlanIsSafe(inv, b, automatic);
    assert v in p.candidates;
    assert !Planner.RevisionProtected(inv, rec, (v.app, v.id));
    assert !RevisionReason(inv, rec, rec.deployments, (v.app, v.id), CurrentDraft);
    assert !RevisionReason(inv, rec, rec.deployments, (v.app, v.id), DeploymentRecovery);
    RecoveryMeaning(inv, rec, (v.app, v.id));
    forall r | r in inv.releases && r.app == v.app && r.revision == v.id
      ensures Release(r.app, r.id, r.revision) in p.candidates[..i]
    {
      Planner.PlanCoversRevisions(inv, b, automatic, i, r);
    }
  }
}
