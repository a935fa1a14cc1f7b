/** The cleanup planner: which unprotected artifacts enter a plan, in which order,
    and why repeated cleanup never erodes what is protected. */
module Planner {
  import opened Artifacts
  import opened Retention
  import opened Sorting
  import opened Protection

  datatype Plan = Plan(candidates: seq<Artifact>, releases: Reasons, revisions: Reasons, temporaries: set<Artifact>)

  function AsArtifact(r: ReleaseItem): Artifact {
    Release(r.app, r.id, r.revision)
  }

  function RevisionArtifact(k: Key): Artifact {
    ConfigRevision(k.0, k.1)
  }

  predicate DistinctKeys(s: seq<ReleaseItem>) {
    forall i, j :: 0 <= i < j < |s| ==> ReleaseKey(s[i]) != ReleaseKey(s[j])
  }

  /** What the scan of a valid store guarantees: names in a directory are distinct. */
  predicate InventoryOk(inv: Inventory) {
    && DistinctApps(inv)
    && DistinctKeys(inv.releases)
    && NoDuplicates(inv.revisions)
    && NoDuplicates(inv.temps) && (forall t :: t in inv.temps ==> t.Temporary?)
  }

  // ---------- Selection ----------

  /** The first `room` elements of `s` that are allowed. */
  function TakeFirst<T(==)>(s: seq<T>, allowed: set<T>, room: nat): seq<T> {
    if s == [] then []
    else
      var t := TakeFirst(s[..|s| - 1], allowed, room);
      if |t| < room && s[|s| - 1] in allowed then t + [s[|s| - 1]] else t
  }

  lemma {:induction false} TakeFirstFits<T>(s: seq<T>, allowed: set<T>, room: nat)
    ensures |TakeFirst(s, allowed, room)| <= room
  {
    if s != [] {
      TakeFirstFits(s[..|s| - 1], allowed, room);
    }
  }

  lemma {:induction false} TakeFirstFacts<T>(s: seq<T>, allowed: set<T>, room: nat)
    ensures var t := TakeFirst(s, allowed, room);
            && |t| <= room
            && (forall x :: x in t ==> x in s && x in allowed)
            && (|t| < room ==> forall x :: x in s && x in allowed ==> x in t)
            && (NoDuplicates(s) ==> NoDuplicates(t))
  {
    if s != [] {
      var n := |s| - 1;
      TakeFirstFacts(s[..n], allowed, room);
      assert s == s[..n] + [s[n]];
    }
  }

  /** What was left out for lack of room comes after everything that was taken. */
  lemma {:induction false} FirstComeFirstTaken<T>(s: seq<T>, allowed: set<T>, room: nat, leq: (T, T) -> bool, x: T, y: T)
    requires Sorted(s, leq) && x in TakeFirst(s, allowed, room)
    requires y in s && y in allowed && y !in TakeFirst(s, allowed, room)
    ensures leq(x, y)
  {
    var n := |s| - 1;
    assert s == s[..n] + [s[n]];
    TakeFirstFacts(s[..n], allowed, room);
    if x in TakeFirst(s[..n], allowed, room) {
      if y in s[..n] {
        FirstComeFirstTaken(s[..n], allowed, room, leq, x, y);
      } else {
        var i :| 0 <= i < n && s[i] == x;
        assert leq(s[i], s[n]);
      }
    }
  }

  /** Selecting once there is no room left adds nothing. */
  lemma {:induction false} FullSelection<T>(s: seq<T>, allowed: set<T>, room: nat, i: nat)
    requires i <= |s| && |TakeFirst(s[..i], allowed, room)| == room
    ensures TakeFirst(s, allowed, room) == TakeFirst(s[..i], allowed, room)
  {
    if i == |s| {
      assert s[..i] == s;
    } else {
      assert s[..|s| - 1][..i] == s[..i];
      FullSelection(s[..|s| - 1], allowed, room, i);
    }
  }

  /** The order in which releases are considered. */
  predicate OlderFirst(a: ReleaseItem, b: ReleaseItem) {
    || a.createdAt < b.createdAt
    || (a.createdAt == b.createdAt && (a.app < b.app || (a.app == b.app && a.id <= b.id)))
  }

  predicate InScope(automatic: Option<Uuid>, app: Uuid) {
    automatic.None? || automatic.value == app
  }

  function FreeReleases(inv: Inventory, blocked: set<Key>, automatic: Option<Uuid>): set<ReleaseItem> {
    set r | r in inv.releases && InScope(automatic, r.app) && ReleaseKey(r) !in blocked
  }

  function SelectedReleases(inv: Inventory, blocked: set<Key>, automatic: Option<Uuid>): seq<ReleaseItem> {
    TakeFirst(Sort(inv.releases, OlderFirst), FreeReleases(inv, blocked, automatic), MAX_CLEANUP_ITEMS)
  }

  function KeysOfSelected(selected: seq<ReleaseItem>): set<Key> {
    set r | r in selected :: ReleaseKey(r)
  }

  /** The revisions that an unselected release names, and the protected ones. */
  function RetainedRevisions(inv: Inventory, selected: set<Key>, blocked: set<Key>): set<Key> {
    (set r | r in inv.releases && ReleaseKey(r) !in selected :: (r.app, r.revision)) + blocked
  }

  function FreeRevisions(inv: Inventory, retained: set<Key>, automatic: Option<Uuid>): set<Key> {
    set v | v in inv.revisions && InScope(automatic, v.0) && v !in retained
  }

  function FreeTemps(inv: Inventory, blocked: set<Artifact>, automatic: Option<Uuid>): set<Artifact> {
    if automatic.Some? then {} else set t | t in inv.temps && t !in blocked
  }

  /** What must not enter a plan. */
  datatype Blocked = Blocked(releases: set<Key>, revisions: set<Key>, temps: set<Artifact>)

  /** The order in which revisions are kept. */
  predicate LowerKey(a: Key, b: Key) {
    a.0 < b.0 || (a.0 == b.0 && a.1 <= b.1)
  }

  function SelectedRevisions(inv: Inventory, b: Blocked, automatic: Option<Uuid>): seq<Key> {
    var selected := SelectedReleases(inv, b.releases, automatic);
    var retained := RetainedRevisions(inv, KeysOfSelected(selected), b.revisions);
    TakeFirst(Sort(inv.revisions, LowerKey), FreeRevisions(inv, retained, automatic),
              if |selected| <= MAX_CLEANUP_ITEMS then MAX_CLEANUP_ITEMS - |selected| else 0)
  }

  function SelectedTemps(inv: Inventory, b: Blocked, automatic: Option<Uuid>): seq<Artifact> {
    var used := |SelectedReleases(inv, b.releases, automatic)| + |SelectedRevisions(inv, b, automatic)|;
    TakeFirst(inv.temps, FreeTemps(inv, b.temps, automatic),
              if used <= MAX_CLEANUP_ITEMS then MAX_CLEANUP_ITEMS - used else 0)
  }

  function ReleaseArtifacts(s: seq<ReleaseItem>): seq<Artifact> {
    seq(|s|, i requires 0 <= i < |s| => AsArtifact(s[i]))
  }

  function RevisionArtifacts(s: seq<Key>): seq<Artifact> {
    seq(|s|, i requires 0 <= i < |s| => RevisionArtifact(s[i]))
  }

  function Candidates(inv: Inventory, b: Blocked, automatic: Option<Uuid>): seq<Artifact> {
    ReleaseArtifacts(SelectedReleases(inv, b.releases, automatic))
    + RevisionArtifacts(SelectedRevisions(inv, b, automatic))
    + SelectedTemps(inv, b, automatic)
  }

  // ---------- What a plan guarantees ----------

  lemma OlderFirstIsTotal()
    ensures TotalOrder(OlderFirst)
  {
  }

  predicate InInventory(inv: Inventory, a: Artifact) {
    match a
    case Release(app, id, revision) => exists r :: r in inv.releases && AsArtifact(r) == a
    case ConfigRevision(app, id) => (app, id) in inv.revisions
    case Temporary(_, _, _) => a in inv.temps
  }

  ghost predicate IsBlocked(b: Blocked, a: Artifact) {
    match a
    case Release(app, id, _) => (app, id) in b.releases
    case ConfigRevision(app, id) => (app, id) in b.revisions
    case Temporary(_, _, _) => a in b.temps
  }

  lemma ReleasePart(inv: Inventory, b: Blocked, automatic: Option<Uuid>)
    requires InventoryOk(inv)
    ensures var s := SelectedReleases(inv, b.releases, automatic);
            && |s| <= MAX_CLEANUP_ITEMS && NoDuplicates(ReleaseArtifacts(s))
            && (forall r :: r in s ==> r in inv.releases && InScope(automatic, r.app) && ReleaseKey(r) !in b.releases)
            && (|s| < MAX_CLEANUP_ITEMS ==>
                  forall r :: r in inv.releases && InScope(automatic, r.app) && ReleaseKey(r) !in b.releases ==> r in s)
  {
    var sorted := Sort(inv.releases, OlderFirst);
    SortPermutes(inv.releases, OlderFirst);
    SortKeepsDistinct(inv.releases, OlderFirst);
    TakeFirstFacts(sorted, FreeReleases(inv, b.releases, automatic), MAX_CLEANUP_ITEMS);
    var s := SelectedReleases(inv, b.releases, automatic);
    forall i, j | 0 <= i < j < |s|
      ensures AsArtifact(s[i]) != AsArtifact(s[j])
    {
      assert s[i] != s[j] && s[i] in s && s[j] in s;
      SameKeySameRelease(inv, s[i], s[j]);
    }
  }

  lemma SameKeySameRelease(inv: Inventory, r: ReleaseItem, s: ReleaseItem)
    requires InventoryOk(inv) && r in inv.releases && s in inv.releases && r != s
    ensures ReleaseKey(r) != ReleaseKey(s)
  {
  }

  /** Among the releases of the store, the selected ones are told by their keys. */
  lemma SelectedByKey(inv: Inventory, s: seq<ReleaseItem>)
    requires InventoryOk(inv) && forall r :: r in s ==> r in inv.releases
    ensures forall r :: r in inv.releases && ReleaseKey(r) in KeysOfSelected(s) ==> r in s
  {
    forall r | r in inv.releases && ReleaseKey(r) in KeysOfSelected(s)
      ensures r in s
    {
      var q :| q in s && ReleaseKey(q) == ReleaseKey(r);
      if q != r { SameKeySameRelease(inv, q, r); }
    }
  }

  /** Every release in the store that names revision `k` is in `s`. */
  ghost predicate OnlyNamedBy(inv: Inventory, k: Key, s: seq<ReleaseItem>) {
    forall r :: r in inv.releases && (r.app, r.revision) == k ==> r in s
  }

  lemma RevisionPart(inv: Inventory, b: Blocked, automatic: Option<Uuid>)
    requires InventoryOk(inv)
    ensures var s, v := SelectedReleases(inv, b.releases, automatic), SelectedRevisions(inv, b, automatic);
            && |s| + |v| <= MAX_CLEANUP_ITEMS && NoDuplicates(v)
            && (forall k :: k in v ==> k in inv.revisions && InScope(automatic, k.0) && k !in b.revisions)
            && (forall k :: k in v ==> OnlyNamedBy(inv, k, s))
            && (|s| + |v| < MAX_CLEANUP_ITEMS ==>
                  forall k :: k in inv.revisions && InScope(automatic, k.0) && k !in b.revisions && OnlyNamedBy(inv, k, s) ==> k in v)
  {
    var s, v := SelectedReleases(inv, b.releases, automatic), SelectedRevisions(inv, b, automatic);
    ReleasePart(inv, b, automatic);
    var retained := RetainedRevisions(inv, KeysOfSelected(s), b.revisions);
    SortPermutes(inv.revisions, LowerKey);
    SortKeepsDistinct(inv.revisions, LowerKey);
    TakeFirstFacts(Sort(inv.revisions, LowerKey), FreeRevisions(inv, retained, automatic), MAX_CLEANUP_ITEMS - |s|);
    SelectedByKey(inv, s);
  }

  lemma TempPart(inv: Inventory, b: Blocked, automatic: Option<Uuid>)
    requires InventoryOk(inv)
    ensures var n := |SelectedReleases(inv, b.releases, automatic)| + |SelectedRevisions(inv, b, automatic)|;
            var t := SelectedTemps(inv, b, automatic);
            && n + |t| <= MAX_CLEANUP_ITEMS && NoDuplicates(t)
            && (forall a :: a in t ==> a in inv.temps && a.Temporary? && a !in b.temps && automatic.None?)
            && (n + |t| < MAX_CLEANUP_ITEMS && automatic.None? ==> forall a :: a in inv.temps && a !in b.temps ==> a in t)
  {
    RevisionPart(inv, b, automatic);
    var n := |SelectedReleases(inv, b.releases, automatic)| + |SelectedRevisions(inv, b, automatic)|;
    TakeFirstFacts(inv.temps, FreeTemps(inv, b.temps, automatic), MAX_CLEANUP_ITEMS - n);
  }

  /** Safety of a plan: bounded, duplicate-free, present, unprotected, in scope. */
  lemma PlanIsSafe(inv: Inventory, b: Blocked, automatic: Option<Uuid>)
    requires InventoryOk(inv)
    ensures var plan := Candidates(inv, b, automatic);
            && |plan| <= 100 && NoDuplicates(plan)
            && (forall a :: a in plan ==> InInventory(inv, a) && !IsBlocked(b, a))
            && (automatic.Some? ==> forall a :: a in plan ==> !a.Temporary? && a.app == automatic.value)
  {
    ReleasePart(inv, b, automatic);
    RevisionPart(inv, b, automatic);
    TempPart(inv, b, automatic);
    var s, v, t := SelectedReleases(inv, b.releases, automatic), SelectedRevisions(inv, b, automatic), SelectedTemps(inv, b, automatic);
    var plan := Candidates(inv, b, automatic);
    forall i | 0 <= i < |plan|
      ensures InInventory(inv, plan[i]) && !IsBlocked(b, plan[i])
      ensures automatic.Some? ==> !plan[i].Temporary? && plan[i].app == automatic.value
    {
      PlanEntry(inv, b, automatic, i);
      if i < |s| { assert s[i] in s; } else if i < |s| + |v| { assert v[i - |s|] in v; } else { assert t[i - |s| - |v|] in t; }
    }
    forall i, j | 0 <= i < j < |plan|
      ensures plan[i] != plan[j]
    {
      PlanEntry(inv, b, automatic, i);
      PlanEntry(inv, b, automatic, j);
      if i >= |s| + |v| { assert t[i - |s| - |v|] != t[j - |s| - |v|]; }
      else if j >= |s| + |v| { assert t[j - |s| - |v|] in t; }
      else if j < |s| { assert ReleaseArtifacts(s)[i] != ReleaseArtifacts(s)[j]; }
      else if i >= |s| { assert v[i - |s|] != v[j - |s|]; }
    }
  }

  /** Where an entry of the plan comes from. */
  lemma PlanEntry(inv: Inventory, b: Blocked, automatic: Option<Uuid>, i: nat)
    requires i < |Candidates(inv, b, automatic)|
    ensures var s, v, t := SelectedReleases(inv, b.releases, automatic), SelectedRevisions(inv, b, automatic), SelectedTemps(inv, b, automatic);
            && |Candidates(inv, b, automatic)| == |s| + |v| + |t|
            && Candidates(inv, b, automatic)[i] ==
               if i < |s| then AsArtifact(s[i]) else if i < |s| + |v| then RevisionArtifact(v[i - |s|]) else t[i - |s| - |v|]
  {
  }

  /** The dependency rule, under the cap too: a revision is planned only after every
      release in the store that names it, and releases come before revisions. */
  lemma PlanCoversRevisions(inv: Inventory, b: Blocked, automatic: Option<Uuid>, i: nat, r: ReleaseItem)
    requires InventoryOk(inv) && i < |Candidates(inv, b, automatic)|
    requires r in inv.releases && Names(AsArtifact(r), Candidates(inv, b, automatic)[i])
    ensures AsArtifact(r) in Candidates(inv, b, automatic)[..i]
  {
    var s, v, plan := SelectedReleases(inv, b.releases, automatic), SelectedRevisions(inv, b, automatic), Candidates(inv, b, automatic);
    RevisionPart(inv, b, automatic);
    TempPart(inv, b, automatic);
    PlanEntry(inv, b, automatic, i);
    var t := SelectedTemps(inv, b, automatic);
    assert forall k :: 0 <= k < |t| ==> t[k].Temporary?;
    assert v[i - |s|] in v && (r.app, r.revision) == v[i - |s|];
    var j :| 0 <= j < |s| && s[j] == r;
    assert plan[..i][j] == AsArtifact(r);
  }

  lemma ReleasesComeFirst(inv: Inventory, b: Blocked, automatic: Option<Uuid>, i: nat, j: nat)
    requires InventoryOk(inv) && i < j < |Candidates(inv, b, automatic)|
    requires Candidates(inv, b, automatic)[i].ConfigRevision?
    ensures !Candidates(inv, b, automatic)[j].Release?
  {
    TempPart(inv, b, automatic);
    PlanEntry(inv, b, automatic, i);
    PlanEntry(inv, b, automatic, j);
    var s, v, t := SelectedReleases(inv, b.releases, automatic), SelectedRevisions(inv, b, automatic), SelectedTemps(inv, b, automatic);
    if j >= |s| + |v| { assert t[j - |s| - |v|] in t; }
  }

  /** A revision that may go is passed over only for lower keys. */
  lemma LowerRevisionsFirst(inv: Inventory, b: Blocked, automatic: Option<Uuid>, k: Key, l: Key)
    requires InventoryOk(inv) && k in SelectedRevisions(inv, b, automatic) && l !in SelectedRevisions(inv, b, automatic)
    requires l in inv.revisions && (automatic.None? || automatic == Some(l.0)) && l !in b.revisions
    requires OnlyNamedBy(inv, l, SelectedReleases(inv, b.releases, automatic))
    ensures k.0 < l.0 || (k.0 == l.0 && k.1 <= l.1)
  {
    var s := SelectedReleases(inv, b.releases, automatic);
    var retained := RetainedRevisions(inv, KeysOfSelected(s), b.revisions);
    ReleasePart(inv, b, automatic);
    SortPermutes(inv.revisions, LowerKey);
    SortSorts(inv.revisions, LowerKey);
    assert l !in retained by {
      forall r | r in inv.releases && (r.app, r.revision) == l
        ensures ReleaseKey(r) in KeysOfSelected(s)
      {
        assert r in s;
      }
    }
    FirstComeFirstTaken(Sort(inv.revisions, LowerKey), FreeRevisions(inv, retained, automatic), MAX_CLEANUP_ITEMS - |s|, LowerKey, k, l);
  }

  lemma {:induction false} TakeFirstSorted<T>(s: seq<T>, allowed: set<T>, room: nat, leq: (T, T) -> bool)
    requires Sorted(s, leq)
    ensures Sorted(TakeFirst(s, allowed, room), leq)
  {
    if s != [] {
      var n := |s| - 1;
      var t := TakeFirst(s[..n], allowed, room);
      TakeFirstSorted(s[..n], allowed, room, leq);
      TakeFirstFacts(s[..n], allowed, room);
      forall i | 0 <= i < |t|
        ensures leq(t[i], s[n])
      {
        assert t[i] in s[..n];
      }
    }
  }

  /** Release `q` comes before `r`: by creation time, application and identifier. */
  ghost predicate ComesBefore(q: ReleaseItem, r: ReleaseItem) {
    || q.createdAt < r.createdAt
    || (q.createdAt == r.createdAt && q.app < r.app)
    || (q.createdAt == r.createdAt && q.app == r.app && q.id <= r.id)
  }

  /** Releases are planned oldest first, and an unprotected one is passed over only when the
      plan is full, and then only for older ones. */
  lemma OldestFirst(inv: Inventory, b: Blocked, automatic: Option<Uuid>)
    requires InventoryOk(inv)
    ensures var s := SelectedReleases(inv, b.releases, automatic);
            && (forall i, j :: 0 <= i < j < |s| ==> ComesBefore(s[i], s[j]))
            && (forall r, q :: r in inv.releases && (automatic.None? || automatic == Some(r.app)) && ReleaseKey(r) !in b.releases && r !in s && q in s ==>
                  |s| == 100 && ComesBefore(q, r))
  {
    ReleasePart(inv, b, automatic);
    OlderFirstIsTotal();
    SortSorts(inv.releases, OlderFirst);
    SortPermutes(inv.releases, OlderFirst);
    var s, sorted, free := SelectedReleases(inv, b.releases, automatic), Sort(inv.releases, OlderFirst), FreeReleases(inv, b.releases, automatic);
    TakeFirstSorted(sorted, free, MAX_CLEANUP_ITEMS, OlderFirst);
    forall i, j | 0 <= i < j < |s|
      ensures ComesBefore(s[i], s[j])
    {
      assert OlderFirst(s[i], s[j]);
    }
    forall r, q | r in inv.releases && (automatic.None? || automatic == Some(r.app)) && ReleaseKey(r) !in b.releases && r !in s && q in s
      ensures ComesBefore(q, r)
    {
      FirstComeFirstTaken(sorted, free, MAX_CLEANUP_ITEMS, OlderFirst, q, r);
    }
  }

  /** Every release that names revision `k` is planned. */
  ghost predicate NamedOnlyByPlanned(inv: Inventory, k: Key, plan: seq<Artifact>) {
    forall r :: r in inv.releases && (r.app, r.revision) == k ==> Release(r.app, r.id, r.revision) in plan
  }

  /** Nothing is left out without need: a plan that is not full holds every unprotected
      release in scope, every unprotected revision in scope that no remaining release names,
      and, if it is manual, every unprotected temporary file. */
  lemma PlanIsComplete(inv: Inventory, b: Blocked, automatic: Option<Uuid>)
    requires InventoryOk(inv) && |Candidates(inv, b, automatic)| < 100
    ensures var plan := Candidates(inv, b, automatic);
            && (forall r :: r in inv.releases && (automatic.None? || automatic == Some(r.app)) && (r.app, r.id) !in b.releases ==>
                  Release(r.app, r.id, r.revision) in plan)
            && (forall k :: k in inv.revisions && (automatic.None? || automatic == Some(k.0)) && k !in b.revisions && NamedOnlyByPlanned(inv, k, plan) ==>
                  ConfigRevision(k.0, k.1) in plan)
            && (automatic.None? ==> forall a :: a in inv.temps && a !in b.temps ==> a in plan)
  {
    ReleasePart(inv, b, automatic);
    RevisionPart(inv, b, automatic);
    TempPart(inv, b, automatic);
    var s, v, t, plan := SelectedReleases(inv, b.releases, automatic), SelectedRevisions(inv, b, automatic), SelectedTemps(inv, b, automatic), Candidates(inv, b, automatic);
    forall r | r in inv.releases && (automatic.None? || automatic == Some(r.app)) && (r.app, r.id) !in b.releases
      ensures Release(r.app, r.id, r.revision) in plan
    {
      assert r in s;
      var i :| 0 <= i < |s| && s[i] == r;
      PlanEntry(inv, b, automatic, i);
    }
    forall k | k in inv.revisions && (automatic.None? || automatic == Some(k.0)) && k !in b.revisions && NamedOnlyByPlanned(inv, k, plan)
      ensures ConfigRevision(k.0, k.1) in plan
    {
      forall r | r in inv.releases && (r.app, r.revision) == k
        ensures r in s
      {
        PlannedIsSelected(inv, b, automatic, r);
      }
      assert OnlyNamedBy(inv, k, s);
      assert k in v;
      var i :| 0 <= i < |v| && v[i] == k;
      PlanEntry(inv, b, automatic, |s| + i);
    }
  }

  /** A planned release was selected. */
  lemma PlannedIsSelected(inv: Inventory, b: Blocked, automatic: Option<Uuid>, r: ReleaseItem)
    requires InventoryOk(inv) && r in inv.releases && Release(r.app, r.id, r.revision) in Candidates(inv, b, automatic)
    ensures r in SelectedReleases(inv, b.releases, automatic)
  {
    var s, t, plan := SelectedReleases(inv, b.releases, automatic), SelectedTemps(inv, b, automatic), Candidates(inv, b, automatic);
    ReleasePart(inv, b, automatic);
    TempPart(inv, b, automatic);
    var i :| 0 <= i < |plan| && plan[i] == Release(r.app, r.id, r.revision);
    PlanEntry(inv, b, automatic, i);
    assert forall j :: 0 <= j < |t| ==> t[j].Temporary?;
    assert s[i] in s;
    if s[i] != r { SameKeySameRelease(inv, s[i], r); }
  }

  // ---------- Building the plan ----------

  ghost predicate ReservedRelease(rec: Records, k: Key) {
    exists a :: a in rec.reserved && a.Release? && (a.app, a.id) == k
  }

  /** Release `k` is protected for some reason, reservations included. */
  ghost predicate ReleaseProtected(inv: Inventory, rec: Records, k: Key) {
    ReservedRelease(rec, k) || exists reason :: ReleaseReason(inv, rec, rec.deployments, k, reason)
  }

  ghost predicate RevisionProtected(inv: Inventory, rec: Records, k: Key) {
    RevisionArtifact(k) in rec.reserved || exists reason :: RevisionReason(inv, rec, rec.deployments, k, reason)
  }

  /** Everything protected is in the store. */
  ghost predicate ProtectedPresent(inv: Inventory, rec: Records) {
    && (forall k :: ReleaseProtected(inv, rec, k) ==> k in ValidReleases(inv))
    && (forall k :: RevisionProtected(inv, rec, k) ==> k in inv.revisions)
    && (forall a :: a in rec.reserved && a.Temporary? ==> a in inv.temps)
  }

  ghost predicate Plannable(inv: Inventory, rec: Records) {
    Consistent(inv, rec) && ProtectedPresent(inv, rec)
  }

  /** Exactly what the rules protect. */
  ghost predicate Blocks(inv: Inventory, rec: Records, b: Blocked) {
    && (forall k :: k in b.releases <==> ReleaseProtected(inv, rec, k))
    && (forall k :: k in b.revisions <==> RevisionProtected(inv, rec, k))
    && (forall a :: a in b.temps <==> a in rec.reserved && a.Temporary?)
  }

  function BlockedBy(p: Plan): Blocked {
    Blocked(KeysOf(p.releases), KeysOf(p.revisions), p.temporaries)
  }

  lemma OneMoreRelease(taken: seq<ReleaseItem>, item: ReleaseItem)
    ensures ReleaseArtifacts(taken + [item]) == ReleaseArtifacts(taken) + [AsArtifact(item)]
    ensures KeysOfSelected(taken + [item]) == KeysOfSelected(taken) + {ReleaseKey(item)}
  {
  }

  /** The first selection loop, over releases that are already in order. */
  method SelectReleasesInOrder(releases: seq<ReleaseItem>, blocked: set<Key>, automatic: Option<Uuid>, free: set<ReleaseItem>)
    returns (candidates: seq<Artifact>, selected: set<Key>)
    requires forall r :: r in releases ==> (r in free <==> InScope(automatic, r.app) && ReleaseKey(r) !in blocked)
    ensures candidates == ReleaseArtifacts(TakeFirst(releases, free, MAX_CLEANUP_ITEMS))
    ensures selected == KeysOfSelected(TakeFirst(releases, free, MAX_CLEANUP_ITEMS))
  {
    ghost var taken := [];
    candidates, selected := [], {};
    for i := 0 to |releases|
      invariant taken == TakeFirst(releases[..i], free, MAX_CLEANUP_ITEMS)
      invariant candidates == ReleaseArtifacts(taken) && selected == KeysOfSelected(taken)
    {
      if |candidates| == MAX_CLEANUP_ITEMS {
        FullSelection(releases, free, MAX_CLEANUP_ITEMS, i);
        return;
      }
      var item := releases[i];
      assert releases[..i + 1][..i] == releases[..i];
      TakeFirstFits(releases[..i], free, MAX_CLEANUP_ITEMS);
      if InScope(automatic, item.app) && ReleaseKey(item) !in blocked {
        OneMoreRelease(taken, item);
        taken := taken + [item];
        selected := selected + {ReleaseKey(item)};
        candidates := candidates + [AsArtifact(item)];
      }
    }
    assert releases[..|releases|] == releases;
  }

  /** Sort the releases, then select. */
  method SelectReleases(inv: Inventory, blocked: Reasons, automatic: Option<Uuid>) returns (candidates: seq<Artifact>, selected: set<Key>)
    ensures candidates == ReleaseArtifacts(SelectedReleases(inv, KeysOf(blocked), automatic))
    ensures selected == KeysOfSelected(SelectedReleases(inv, KeysOf(blocked), automatic))
  {
    SortPermutes(inv.releases, OlderFirst);
    candidates, selected := SelectReleasesInOrder(
      Sort(inv.releases, OlderFirst), KeysOf(blocked), automatic, FreeReleases(inv, KeysOf(blocked), automatic));
  }

  /** The second selection loop, over revisions in key order. */
  method SelectRevisionsInOrder(revisions: seq<Key>, retained: set<Key>, automatic: Option<Uuid>, room: nat, free: set<Key>)
    returns (candidates: seq<Artifact>)
    requires forall v :: v in revisions ==> (v in free <==> InScope(automatic, v.0) && v !in retained)
    ensures candidates == RevisionArtifacts(TakeFirst(revisions, free, room))
  {
    candidates := [];
    for i := 0 to |revisions|
      invariant candidates == RevisionArtifacts(TakeFirst(revisions[..i], free, room))
    {
      if |candidates| == room {
        FullSelection(revisions, free, room, i);
        return;
      }
      assert revisions[..i + 1][..i] == revisions[..i];
      TakeFirstFits(revisions[..i], free, room);
      if InScope(automatic, revisions[i].0) && revisions[i] !in retained {
        candidates := candidates + [RevisionArtifact(revisions[i])];
      }
    }
    assert revisions[..|revisions|] == revisions;
  }

  /** Put the revisions in key order, then select. */
  method SelectRevisions(inv: Inventory, retained: set<Key>, automatic: Option<Uuid>, room: nat) returns (candidates: seq<Artifact>)
    ensures candidates == RevisionArtifacts(TakeFirst(Sort(inv.revisions, LowerKey), FreeRevisions(inv, retained, automatic), room))
  {
    SortPermutes(inv.revisions, LowerKey);
    candidates := SelectRevisionsInOrder(
      Sort(inv.revisions, LowerKey), retained, automatic, room, FreeRevisions(inv, retained, automatic));
  }

  /** The third selection loop. */
  method SelectTemps(inv: Inventory, blocked: set<Artifact>, automatic: Option<Uuid>, room: nat) returns (candidates: seq<Artifact>)
    ensures candidates == TakeFirst(inv.temps, FreeTemps(inv, blocked, automatic), room)
  {
    ghost var free := FreeTemps(inv, blocked, automatic);
    candidates := [];
    for i := 0 to |inv.temps|
      invariant candidates == TakeFirst(inv.temps[..i], free, room)
    {
      if |candidates| == room {
        FullSelection(inv.temps, free, room, i);
        return;
      }
      assert inv.temps[..i + 1][..i] == inv.temps[..i];
      TakeFirstFits(inv.temps[..i], free, room);
      if automatic.None? && inv.temps[i] !in blocked {
        candidates := candidates + [inv.temps[i]];
      }
    }
    assert inv.temps[..|inv.temps|] == inv.temps;
  }

  /** Why release `k` is protected, reservations included. */
  ghost predicate ProtectsRelease(inv: Inventory, rec: Records, k: Key, reason: Reason) {
    ReleaseReason(inv, rec, rec.deployments, k, reason) || (reason == CleanupInProgress && ReservedRelease(rec, k))
  }

  ghost predicate ProtectsRevision(inv: Inventory, rec: Records, k: Key, reason: Reason) {
    RevisionReason(inv, rec, rec.deployments, k, reason) || (reason == CleanupInProgress && RevisionArtifact(k) in rec.reserved)
  }

  /** A plan lists exactly the protections, each with all its reasons. */
  ghost predicate ListsProtections(inv: Inventory, rec: Records, p: Plan) {
    && (forall k, reason :: (k, reason) in p.releases <==> ProtectsRelease(inv, rec, k, reason))
    && (forall k, reason :: (k, reason) in p.revisions <==> ProtectsRevision(inv, rec, k, reason))
    && (forall a :: a in p.temporaries <==> a in rec.reserved && a.Temporary?)
  }

  /** The whole plan: its candidates and everything it protects. */
  ghost predicate IsPlan(inv: Inventory, rec: Records, automatic: Option<Uuid>, p: Plan) {
    ListsProtections(inv, rec, p) && p.candidates == Candidates(inv, BlockedBy(p), automatic)
  }

  lemma ProtectionsBlock(inv: Inventory, rec: Records, p: Plan)
    requires ListsProtections(inv, rec, p)
    ensures Blocks(inv, rec, BlockedBy(p))
  {
    forall k
      ensures k in KeysOf(p.releases) <==> ReleaseProtected(inv, rec, k)
    {
      if k in KeysOf(p.releases) {
        var reason :| (k, reason) in p.releases;
        assert ProtectsRelease(inv, rec, k, reason);
      }
      if reason :| ReleaseReason(inv, rec, rec.deployments, k, reason) {
        assert (k, reason) in p.releases;
      }
      if ReservedRelease(rec, k) {
        assert (k, CleanupInProgress) in p.releases;
      }
    }
    forall k
      ensures k in KeysOf(p.revisions) <==> RevisionProtected(inv, rec, k)
    {
      if k in KeysOf(p.revisions) {
        var reason :| (k, reason) in p.revisions;
        assert ProtectsRevision(inv, rec, k, reason);
      }
      if reason :| RevisionReason(inv, rec, rec.deployments, k, reason) {
        assert (k, reason) in p.revisions;
      }
      if RevisionArtifact(k) in rec.reserved {
        assert (k, CleanupInProgress) in p.revisions;
      }
    }
  }

  /** The inventory and the records determine the plan. */
  lemma PlanIsUnique(inv: Inventory, rec: Records, automatic: Option<Uuid>, p: Plan, q: Plan)
    requires IsPlan(inv, rec, automatic, p) && IsPlan(inv, rec, automatic, q)
    ensures p == q
  {
    assert p.releases == q.releases;
    assert p.revisions == q.revisions;
    assert p.temporaries == q.temporaries;
  }

  /** Everything that protects: the deployments, then the unfinished cleanup operations. */
  method CollectProtections(inv: Inventory, rec: Records) returns (r: Result<Plan, PlanError>)
    requires DistinctApps(inv)
    ensures r.Ok? <==> Consistent(inv, rec)
    ensures r.Ok? ==> ListsProtections(inv, rec, r.value)
  {
    var p := ProtectFromDeployments(inv, rec);
    if p.Err? {
      return Err(p.error);
    }
    var releases := p.value.releases + set a | a in rec.reserved && a.Release? :: ((a.app, a.id), CleanupInProgress);
    var revisions := p.value.revisions + set a | a in rec.reserved && a.ConfigRevision? :: ((a.app, a.id), CleanupInProgress);
    r := Ok(Plan([], releases, revisions, set a | a in rec.reserved && a.Temporary?));
  }

  /** The three selection loops. */
  method SelectAll(inv: Inventory, plan: Plan, automatic: Option<Uuid>) returns (candidates: seq<Artifact>)
    requires InventoryOk(inv)
    ensures candidates == Candidates(inv, BlockedBy(plan), automatic)
  {
    var b := BlockedBy(plan);
    ReleasePart(inv, b, automatic);
    RevisionPart(inv, b, automatic);
    var releases, selected := SelectReleases(inv, plan.releases, automatic);
    var retained := RetainedRevisions(inv, selected, b.revisions);
    var revisions := SelectRevisions(inv, retained, automatic, MAX_CLEANUP_ITEMS - |releases|);
    var temps := SelectTemps(inv, plan.temporaries, automatic, MAX_CLEANUP_ITEMS - |releases| - |revisions|);
    candidates := releases + revisions + temps;
  }

  /** build_plan_inner, for a valid inventory: it succeeds exactly when the records are
      consistent and everything protected is present. */
  method BuildPlan(inv: Inventory, rec: Records, automatic: Option<Uuid>) returns (r: Result<Plan, PlanError>)
    requires InventoryOk(inv)
    ensures r.Ok? <==> Plannable(inv, rec)
    ensures r.Ok? ==> IsPlan(inv, rec, automatic, r.value)
  {
    var protections := CollectProtections(inv, rec);
    if protections.Err? {
      return protections;
    }
    var plan := protections.value;
    var b := BlockedBy(plan);
    ProtectionsBlock(inv, rec, plan);
    if !(&& b.releases <= ValidReleases(inv)
         && (forall k :: k in b.revisions ==> k in inv.revisions)
         && (forall a :: a in b.temps ==> a in inv.temps)) {
      return Err(InventoryIncomplete);
    }
    var candidates := SelectAll(inv, plan, automatic);
    r := Ok(plan.(candidates := candidates));
  }
}
