/** Which releases and revisions a cleanup plan must leave alone: what is in use, what
    a rollback may need, and what an unfinished deployment refers to. */
module Protection {
  import opened Artifacts
  import opened Retention
  import opened Sorting

  /** An application and one of its releases or revisions. */
  type Key = (Uuid, Uuid)

  datatype Reason = Active | Pending | CurrentDraft | RecentRollback | DeploymentRecovery | CleanupInProgress

  datatype DeployStatus = Queued | Running | Interrupted | NeedsAttention | Succeeded | NoOp | DeployFailed | RolledBack

  datatype App = App(id: Uuid, active: Option<Uuid>, pending: Option<Uuid>, draft: Option<Uuid>)

  datatype ReleaseItem = ReleaseItem(app: Uuid, id: Uuid, revision: Uuid, createdAt: nat)

  /** What the scan of the store found. */
  datatype Inventory = Inventory(apps: seq<App>, releases: seq<ReleaseItem>, revisions: seq<Key>, temps: seq<Artifact>)

  /** A row of the deployments table. `others` are its five release references besides
      the candidate; `terminal` is its phase. */
  datatype Deployment = Deployment(
    id: Uuid, app: Uuid, requested: Uuid, others: seq<Option<Uuid>>, candidate: Option<Uuid>,
    status: DeployStatus, terminal: bool, completedAt: Option<nat>)

  /** What the database says: deployments newest first, the number of versions each
      enabled policy keeps, the applications that were unregistered, and the artifacts
      that unfinished cleanup operations reserve. */
  datatype Records = Records(
    deployments: seq<Deployment>, policies: map<Uuid, nat>, unregistered: set<Uuid>, reserved: set<Artifact>)

  /** The reasons that protect each key. */
  type Reasons = set<(Key, Reason)>

  datatype PlanError = InventoryIncomplete | RecordInvalid | RecoveryReferenceMissing(app: Uuid, deployment: Uuid)

  datatype Protections = Protections(releases: Reasons, revisions: Reasons)

  const RECENT_ROLLBACK_RELEASES: nat := 3

  function KeysOf(p: Reasons): set<Key> {
    set x | x in p :: x.0
  }

  function ReleaseKey(r: ReleaseItem): Key {
    (r.app, r.id)
  }

  function ValidReleases(inv: Inventory): set<Key> {
    set r | r in inv.releases :: ReleaseKey(r)
  }

  function References(d: Deployment): seq<Option<Uuid>> {
    d.others + [d.candidate]
  }

  // ---------- What each rule protects ----------

  predicate IsActive(inv: Inventory, k: Key) {
    exists a :: a in inv.apps && a.id == k.0 && a.active == Some(k.1)
  }

  predicate IsPending(inv: Inventory, k: Key) {
    exists a :: a in inv.apps && a.id == k.0 && a.pending == Some(k.1)
  }

  predicate IsDraft(inv: Inventory, k: Key) {
    exists a :: a in inv.apps && a.id == k.0 && a.draft == Some(k.1)
  }

  function ActiveReleases(inv: Inventory, app: Uuid): set<Uuid> {
    set a | a in inv.apps && a.id == app && a.active.Some? :: a.active.value
  }

  datatype Success = Success(at: nat, id: Uuid, release: Uuid)

  /** The order of the policy: newest completion first. */
  predicate NewerFirst(a: Success, b: Success) {
    || a.at > b.at
    || (a.at == b.at && (a.id > b.id || (a.id == b.id && a.release >= b.release)))
  }

  predicate CountsAsSuccess(d: Deployment, app: Uuid) {
    d.app == app && d.status == Succeeded && d.terminal
  }

  function Successes(rows: seq<Deployment>, app: Uuid, valid: set<Key>): seq<Success> {
    if rows == [] then []
    else
      var s, d := Successes(rows[..|rows| - 1], app, valid), rows[|rows| - 1];
      if CountsAsSuccess(d, app) && d.completedAt.Some? && d.candidate.Some? && (app, d.candidate.value) in valid
      then s + [Success(d.completedAt.value, d.id, d.candidate.value)]
      else s
  }

  function ReleasesOf(s: seq<Success>): seq<Uuid> {
    seq(|s|, i requires 0 <= i < |s| => s[i].release)
  }

  /** What an enabled policy keeps of one application. */
  function PolicyKeeps(inv: Inventory, rec: Records, app: Uuid): set<Uuid> {
    if app in rec.policies && app !in rec.unregistered
    then Retain(ActiveReleases(inv, app), rec.policies[app],
                ReleasesOf(Sort(Successes(rec.deployments, app, ValidReleases(inv)), NewerFirst)))
    else {}
  }

  predicate CountsAsRecent(inv: Inventory, d: Deployment, app: Uuid) {
    && d.app == app
    && (d.status == Succeeded || d.status == NoOp || d.status == DeployFailed || d.status == RolledBack)
    && d.candidate.Some? && (app, d.candidate.value) in ValidReleases(inv)
    && !IsActive(inv, (app, d.candidate.value)) && !IsPending(inv, (app, d.candidate.value))
  }

  function RecentCandidates(inv: Inventory, rows: seq<Deployment>, app: Uuid): seq<Uuid> {
    if rows == [] then []
    else
      var s, d := RecentCandidates(inv, rows[..|rows| - 1], app), rows[|rows| - 1];
      if CountsAsRecent(inv, d, app) then s + [d.candidate.value] else s
  }

  /** What the fixed rollback window keeps of an application without a policy. */
  function WindowKeeps(inv: Inventory, rec: Records, rows: seq<Deployment>, app: Uuid): set<Uuid> {
    if app in rec.policies || app in rec.unregistered then {}
    else Retain({}, RECENT_ROLLBACK_RELEASES, RecentCandidates(inv, rows, app))
  }

  /** An unfinished deployment of a registered application. */
  predicate Recovers(rec: Records, d: Deployment) {
    && d.app !in rec.unregistered
    && (d.status == Queued || d.status == Running || d.status == Interrupted || d.status == NeedsAttention)
  }

  ghost predicate RecoversRelease(rec: Records, rows: seq<Deployment>, k: Key) {
    exists d :: d in rows && Recovers(rec, d) && d.app == k.0 && Some(k.1) in References(d)
  }

  ghost predicate RecoversRevision(rec: Records, rows: seq<Deployment>, k: Key) {
    exists d :: d in rows && Recovers(rec, d) && d.app == k.0 && d.requested == k.1
  }

  /** Release `k` is protected for `reason`, looking only at the deployments `rows`
      in the second pass. */
  ghost predicate ReleaseReason(inv: Inventory, rec: Records, rows: seq<Deployment>, k: Key, reason: Reason) {
    match reason
    case Active => IsActive(inv, k)
    case Pending => IsPending(inv, k)
    case CurrentDraft => false
    case RecentRollback => k.1 in PolicyKeeps(inv, rec, k.0) || k.1 in WindowKeeps(inv, rec, rows, k.0)
    case DeploymentRecovery => RecoversRelease(rec, rows, k)
    case CleanupInProgress => false
  }

  ghost predicate RevisionReason(inv: Inventory, rec: Records, rows: seq<Deployment>, k: Key, reason: Reason) {
    match reason
    case CurrentDraft => IsDraft(inv, k)
    case DeploymentRecovery => RecoversRevision(rec, rows, k)
    case _ => false
  }

  // ---------- When the records are rejected ----------

  predicate BadSuccess(rec: Records, d: Deployment) {
    d.app in rec.policies && d.app !in rec.unregistered && CountsAsSuccess(d, d.app) && d.completedAt.None?
  }

  predicate BadUnregistered(rec: Records, d: Deployment) {
    && d.app in rec.unregistered
    && !(&& d.terminal && d.completedAt.Some?
         && (d.status == Succeeded || d.status == NoOp || d.status == DeployFailed || d.status == RolledBack
             || d.status == NeedsAttention || d.status == Interrupted))
  }

  predicate MissingReference(inv: Inventory, rec: Records, d: Deployment) {
    && Recovers(rec, d)
    && ((d.app, d.requested) !in inv.revisions
        || exists x :: x in References(d) && x.Some? && (d.app, x.value) !in ValidReleases(inv))
  }

  /** The records are complete: nothing in them stops the planner. */
  ghost predicate Consistent(inv: Inventory, rec: Records) {
    forall d :: d in rec.deployments ==> !BadSuccess(rec, d) && !BadUnregistered(rec, d) && !MissingReference(inv, rec, d)
  }

  // ---------- The loops ----------

  predicate DistinctApps(inv: Inventory) {
    forall a, b :: a in inv.apps && b in inv.apps && a.id == b.id ==> a == b
  }

  function OptionalKey(app: Uuid, id: Option<Uuid>, reason: Reason): Reasons {
    if id.Some? then {((app, id.value), reason)} else {}
  }

  /** The first pass over the applications. */
  method ProtectInUse(inv: Inventory) returns (p: Protections)
    ensures forall k, reason :: (k, reason) in p.releases <==>
              (reason == Active && IsActive(inv, k)) || (reason == Pending && IsPending(inv, k))
    ensures forall k, reason :: (k, reason) in p.revisions <==> reason == CurrentDraft && IsDraft(inv, k)
  {
    p := Protections({}, {});
    for i := 0 to |inv.apps|
      invariant forall k, reason :: (k, reason) in p.releases <==>
                  exists a :: a in inv.apps[..i] && a.id == k.0 &&
                    ((reason == Active && a.active == Some(k.1)) || (reason == Pending && a.pending == Some(k.1)))
      invariant forall k, reason :: (k, reason) in p.revisions <==>
                  exists a :: a in inv.apps[..i] && a.id == k.0 && reason == CurrentDraft && a.draft == Some(k.1)
    {
      var a := inv.apps[i];
      assert inv.apps[..i + 1] == inv.apps[..i] + [a];
      p := Protections(
        p.releases + OptionalKey(a.id, a.active, Active) + OptionalKey(a.id, a.pending, Pending),
        p.revisions + OptionalKey(a.id, a.draft, CurrentDraft));
    }
    assert inv.apps[..|inv.apps|] == inv.apps;
  }

  /** The successful deployments of one application, or an error for a success without
      a completion time. */
  method CollectSuccesses(inv: Inventory, rec: Records, app: Uuid) returns (r: Result<seq<Success>, PlanError>)
    requires app in rec.policies && app !in rec.unregistered
    ensures r.Ok? <==> forall d :: d in rec.deployments && d.app == app ==> !BadSuccess(rec, d)
    ensures r.Ok? ==> r.value == Successes(rec.deployments, app, ValidReleases(inv))
    ensures r.Err? ==> r.error == RecordInvalid
  {
    var rows, successes := rec.deployments, [];
    for i := 0 to |rows|
      invariant successes == Successes(rows[..i], app, ValidReleases(inv))
      invariant forall j :: 0 <= j < i && rows[j].app == app ==> !BadSuccess(rec, rows[j])
    {
      var d := rows[i];
      assert rows[..i + 1][..i] == rows[..i];
      if CountsAsSuccess(d, app) {
        if d.completedAt.None? {
          assert BadSuccess(rec, d);
          return Err(RecordInvalid);
        }
        if d.candidate.Some? && (app, d.candidate.value) in ValidReleases(inv) {
          successes := successes + [Success(d.completedAt.value, d.id, d.candidate.value)];
        }
      }
    }
    assert rows[..|rows|] == rows;
    r := Ok(successes);
  }

  /** The loop over the enabled policies. */
  method ProtectByPolicy(inv: Inventory, rec: Records, base: Reasons) returns (r: Result<Reasons, PlanError>)
    requires DistinctApps(inv)
    requires forall k, reason :: (k, reason) in base <==>
               (reason == Active && IsActive(inv, k)) || (reason == Pending && IsPending(inv, k))
    ensures r.Ok? <==> forall d :: d in rec.deployments ==> !BadSuccess(rec, d)
    ensures r.Ok? ==> forall k, reason :: (k, reason) in r.value <==>
              (k, reason) in base || (reason == RecentRollback && k.1 in PolicyKeeps(inv, rec, k.0))
    ensures r.Err? ==> r.error == RecordInvalid
  {
    var releases := base;
    var todo := rec.policies.Keys;
    while todo != {}
      invariant todo <= rec.policies.Keys
      invariant forall d :: d in rec.deployments && d.app in rec.policies && d.app !in todo ==> !BadSuccess(rec, d)
      invariant forall k, reason :: (k, reason) in releases <==>
                  (k, reason) in base || (reason == RecentRollback && k.0 !in todo && k.1 in PolicyKeeps(inv, rec, k.0))
      decreases |todo|
    {
      var app :| app in todo;
      todo := todo - {app};
      if app !in rec.unregistered {
        var active := FindActive(inv, app, releases);
        var successes := CollectSuccesses(inv, rec, app);
        if successes.Err? {
          return Err(RecordInvalid);
        }
        var selected := RetainedReleases(active, rec.policies[app], ReleasesOf(Sort(successes.value, NewerFirst)));
        assert selected == PolicyKeeps(inv, rec, app);
        releases := releases + set id | id in selected :: ((app, id), RecentRollback);
      }
    }
    r := Ok(releases);
  }

  method FindActive(inv: Inventory, app: Uuid, releases: Reasons) returns (active: Option<Uuid>)
    requires DistinctApps(inv)
    requires forall k :: (k, Active) in releases <==> IsActive(inv, k)
    ensures AsSet(active) == ActiveReleases(inv, app)
  {
    var found := set x | x in releases && x.0.0 == app && x.1 == Active :: x.0.1;
    assert found == ActiveReleases(inv, app) by {
      forall id
        ensures id in found <==> id in ActiveReleases(inv, app)
      {
        assert id in found <==> ((app, id), Active) in releases;
      }
    }
    if found == {} {
      active := None;
    } else {
      var id :| id in found;
      active := Some(id);
      assert found == {id};
    }
  }

  /** What the second pass has protected after the first `n` deployments. */
  ghost predicate PassState(inv: Inventory, rec: Records, n: nat, recent: map<Uuid, set<Uuid>>, p: Protections)
    requires n <= |rec.deployments|
  {
    var rows := rec.deployments[..n];
    && (forall app :: app !in rec.policies ==> Values(recent, app) == WindowKeeps(inv, rec, rows, app))
    && (forall k, reason :: (k, reason) in p.releases <==> ReleaseReason(inv, rec, rows, k, reason))
    && (forall k, reason :: (k, reason) in p.revisions <==> RevisionReason(inv, rec, rows, k, reason))
    && (forall d :: d in rows ==> !BadUnregistered(rec, d) && !MissingReference(inv, rec, d))
  }

  /** How one more deployment changes the window. */
  lemma WindowStep(inv: Inventory, rec: Records, n: nat, app: Uuid)
    requires n < |rec.deployments|
    ensures var d, before := rec.deployments[n], WindowKeeps(inv, rec, rec.deployments[..n], app);
            WindowKeeps(inv, rec, rec.deployments[..n + 1], app) ==
              if app !in rec.policies && app !in rec.unregistered && CountsAsRecent(inv, d, app) && |before| < RECENT_ROLLBACK_RELEASES
              then before + {d.candidate.value} else before
  {
    var rows, d := rec.deployments[..n], rec.deployments[n];
    assert rec.deployments[..n + 1][..n] == rows;
    var s := RecentCandidates(inv, rows, app);
    assert d.candidate.Some? ==> (s + [d.candidate.value])[..|s|] == s;
  }

  lemma RecoveryStep(rec: Records, n: nat, k: Key)
    requires n < |rec.deployments|
    ensures var d := rec.deployments[n];
            && (RecoversRelease(rec, rec.deployments[..n + 1], k) <==>
                RecoversRelease(rec, rec.deployments[..n], k) || (Recovers(rec, d) && d.app == k.0 && Some(k.1) in References(d)))
            && (RecoversRevision(rec, rec.deployments[..n + 1], k) <==>
                RecoversRevision(rec, rec.deployments[..n], k) || (Recovers(rec, d) && d.app == k.0 && d.requested == k.1))
  {
  }

  function Values(recent: map<Uuid, set<Uuid>>, app: Uuid): set<Uuid> {
    if app in recent then recent[app] else {}
  }

  predicate JoinsWindow(inv: Inventory, rec: Records, d: Deployment, recent: map<Uuid, set<Uuid>>) {
    d.app !in rec.unregistered && d.app !in rec.policies && CountsAsRecent(inv, d, d.app) && |Values(recent, d.app)| < RECENT_ROLLBACK_RELEASES
  }

  function NextRecent(inv: Inventory, rec: Records, d: Deployment, recent: map<Uuid, set<Uuid>>): map<Uuid, set<Uuid>> {
    if JoinsWindow(inv, rec, d, recent) then recent[d.app := Values(recent, d.app) + {d.candidate.value}] else recent
  }

  function RecoveredReleases(d: Deployment): Reasons {
    set x | x in References(d) && x.Some? :: ((d.app, x.value), DeploymentRecovery)
  }

  function WithWindow(inv: Inventory, rec: Records, d: Deployment, recent: map<Uuid, set<Uuid>>, releases: Reasons): Reasons {
    if JoinsWindow(inv, rec, d, recent) then releases + {((d.app, d.candidate.value), RecentRollback)} else releases
  }

  /** What one deployment adds to the protections. */
  function NextProtections(inv: Inventory, rec: Records, d: Deployment, recent: map<Uuid, set<Uuid>>, p: Protections): Protections {
    var releases := WithWindow(inv, rec, d, recent, p.releases);
    if Recovers(rec, d)
    then Protections(releases + RecoveredReleases(d), p.revisions + {((d.app, d.requested), DeploymentRecovery)})
    else Protections(releases, p.revisions)
  }

  /** One deployment of the second pass. */
  method ProtectRow(inv: Inventory, rec: Records, d: Deployment, recent: map<Uuid, set<Uuid>>, p: Protections)
    returns (r: Result<(map<Uuid, set<Uuid>>, Protections), PlanError>)
    ensures r.Ok? <==> !BadUnregistered(rec, d) && !MissingReference(inv, rec, d)
    ensures r.Ok? ==> r.value == (NextRecent(inv, rec, d, recent), NextProtections(inv, rec, d, recent, p))
    ensures r.Err? ==>
              r.error == if BadUnregistered(rec, d) then InventoryIncomplete else RecoveryReferenceMissing(d.app, d.id)
  {
    var recent', releases, revisions := recent, p.releases, p.revisions;
    if d.app in rec.unregistered {
      if BadUnregistered(rec, d) {
        return Err(InventoryIncomplete);
      }
    } else {
      if d.app !in rec.policies && CountsAsRecent(inv, d, d.app) {
        var values := Values(recent, d.app);
        if |values| < RECENT_ROLLBACK_RELEASES {
          recent' := recent[d.app := values + {d.candidate.value}];
          releases := releases + {((d.app, d.candidate.value), RecentRollback)};
        }
      }
      if Recovers(rec, d) {
        if MissingReference(inv, rec, d) {
          return Err(RecoveryReferenceMissing(d.app, d.id));
        }
        revisions := revisions + {((d.app, d.requested), DeploymentRecovery)};
        releases := releases + RecoveredReleases(d);
      }
    }
    r := Ok((recent', Protections(releases, revisions)));
  }

  lemma ReleaseStep(inv: Inventory, rec: Records, n: nat, recent: map<Uuid, set<Uuid>>, p: Protections, k: Key, reason: Reason)
    requires n < |rec.deployments| && PassState(inv, rec, n, recent, p)
    ensures (k, reason) in NextProtections(inv, rec, rec.deployments[n], recent, p).releases
            <==> ReleaseReason(inv, rec, rec.deployments[..n + 1], k, reason)
  {
    var d := rec.deployments[n];
    assert (k, reason) in p.releases <==> ReleaseReason(inv, rec, rec.deployments[..n], k, reason);
    match reason
    case RecentRollback =>
      WindowStep(inv, rec, n, k.0);
      assert k.0 !in rec.policies ==> Values(recent, k.0) == WindowKeeps(inv, rec, rec.deployments[..n], k.0);
    case DeploymentRecovery =>
      RecoveryStep(rec, n, k);
      assert (k, reason) in RecoveredReleases(d) <==> d.app == k.0 && Some(k.1) in References(d);
    case _ =>
  }

  lemma RevisionStep(inv: Inventory, rec: Records, n: nat, recent: map<Uuid, set<Uuid>>, p: Protections, k: Key, reason: Reason)
    requires n < |rec.deployments| && PassState(inv, rec, n, recent, p)
    ensures (k, reason) in NextProtections(inv, rec, rec.deployments[n], recent, p).revisions
            <==> RevisionReason(inv, rec, rec.deployments[..n + 1], k, reason)
  {
  }

  lemma PassStep(inv: Inventory, rec: Records, n: nat, recent: map<Uuid, set<Uuid>>, p: Protections)
    requires n < |rec.deployments| && PassState(inv, rec, n, recent, p)
    requires !BadUnregistered(rec, rec.deployments[n]) && !MissingReference(inv, rec, rec.deployments[n])
    ensures PassState(inv, rec, n + 1, NextRecent(inv, rec, rec.deployments[n], recent), NextProtections(inv, rec, rec.deployments[n], recent, p))
  {
    var rows, rows', d := rec.deployments[..n], rec.deployments[..n + 1], rec.deployments[n];
    var recent', p' := NextRecent(inv, rec, d, recent), NextProtections(inv, rec, d, recent, p);
    assert rows' == rows + [d];
    forall app
      ensures app !in rec.policies ==> Values(recent', app) == WindowKeeps(inv, rec, rows', app)
    {
      WindowStep(inv, rec, n, app);
      assert app !in rec.policies ==> Values(recent, app) == WindowKeeps(inv, rec, rows, app);
    }
    forall k: Key, reason
      ensures (k, reason) in p'.releases <==> ReleaseReason(inv, rec, rows', k, reason)
    {
      ReleaseStep(inv, rec, n, recent, p, k, reason);
    }
    forall k: Key, reason
      ensures (k, reason) in p'.revisions <==> RevisionReason(inv, rec, rows', k, reason)
    {
      RevisionStep(inv, rec, n, recent, p, k, reason);
    }
  }

  /** protect_from_deployments, after the pass over the applications: it succeeds exactly
      on consistent records and protects exactly what the rules say. */
  method ProtectFromDeployments(inv: Inventory, rec: Records) returns (r: Result<Protections, PlanError>)
    requires DistinctApps(inv)
    ensures r.Ok? <==> Consistent(inv, rec)
    ensures r.Ok? ==>
              forall k, reason :: (k, reason) in r.value.releases <==> ReleaseReason(inv, rec, rec.deployments, k, reason)
    ensures r.Ok? ==>
              forall k, reason :: (k, reason) in r.value.revisions <==> RevisionReason(inv, rec, rec.deployments, k, reason)
    ensures r.Err? && r.error.RecoveryReferenceMissing? ==>
              exists d :: d in rec.deployments && MissingReference(inv, rec, d) && r.error == RecoveryReferenceMissing(d.app, d.id)
  {
    var p := ProtectInUse(inv);
    var policy := ProtectByPolicy(inv, rec, p.releases);
    if policy.Err? {
      return Err(policy.error);
    }
    p := p.(releases := policy.value);
    var recent: map<Uuid, set<Uuid>> := map[];
    for n := 0 to |rec.deployments|
      invariant PassState(inv, rec, n, recent, p)
    {
      var step := ProtectRow(inv, rec, rec.deployments[n], recent, p);
      if step.Err? {
        return Err(step.error);
      }
      PassStep(inv, rec, n, recent, p);
      recent, p := step.value.0, step.value.1;
    }
    assert rec.deployments[..|rec.deployments|] == rec.deployments;
    r := Ok(p);
  }
}
