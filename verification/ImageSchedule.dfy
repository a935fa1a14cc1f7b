/** The automatic image cleanup scheduler: which unprotected images enter the next
    batch, and why none of them waits forever. */
module ImageSchedule {
  import opened Artifacts
  import opened Sorting

  type ImageId = nat

  // ---------- Candidates ----------

  /** A cleaned release whose image the engine still has: the image it resolves to, and
      whether something in use refers to it. */
  datatype Sighting = Sighting(image: ImageId, record: Uuid, isProtected: bool)

  ghost predicate ProtectedBySome(s: seq<Sighting>, image: ImageId) {
    exists i :: 0 <= i < |s| && s[i].image == image && s[i].isProtected
  }

  /** `record` is the first unprotected sighting of `image`. */
  ghost predicate FirstFree(s: seq<Sighting>, image: ImageId, record: Uuid) {
    exists i :: && 0 <= i < |s| && s[i] == Sighting(image, record, false)
                && forall j :: 0 <= j < i && s[j].image == image ==> s[j].isProtected
  }

  /** An image is a candidate exactly when some sighting names it and none protects it,
      whatever the order of the sightings. */
  method Classify(sightings: seq<Sighting>) returns (candidates: map<ImageId, Uuid>, guarded: set<ImageId>)
    ensures forall id :: id in guarded <==> ProtectedBySome(sightings, id)
    ensures forall id :: id in candidates <==> (exists s :: s in sightings && s.image == id) && !ProtectedBySome(sightings, id)
    ensures forall id :: id in candidates ==> FirstFree(sightings, id, candidates[id])
  {
    candidates, guarded := map[], {};
    for n := 0 to |sightings|
      invariant forall id :: id in guarded <==> ProtectedBySome(sightings[..n], id)
      invariant forall id :: id in candidates <==> exists i :: 0 <= i < n && sightings[i].image == id && !sightings[i].isProtected
      invariant forall id :: id in candidates ==> FirstFree(sightings[..n], id, candidates[id])
    {
      var s := sightings[n];
      ghost var before, seen := candidates, sightings[..n];
      assert sightings[..n + 1] == seen + [s];
      if s.isProtected {
        guarded := guarded + {s.image};
      } else if s.image !in candidates {
        candidates := candidates[s.image := s.record];
      }
      GuardStep(seen, s);
      forall id | id in candidates
        ensures FirstFree(sightings[..n + 1], id, candidates[id])
      {
        if id in before {
          var i :| 0 <= i < |seen| && seen[i] == Sighting(id, before[id], false) && forall j :: 0 <= j < i && seen[j].image == id ==> seen[j].isProtected;
          assert sightings[..n + 1][i] == seen[i];
        } else {
          assert sightings[..n + 1][n] == s;
        }
      }
    }
    assert sightings[..|sightings|] == sightings;
    candidates := candidates - guarded;
  }

  lemma GuardStep(seen: seq<Sighting>, s: Sighting)
    ensures forall id :: ProtectedBySome(seen + [s], id) <==> ProtectedBySome(seen, id) || (s.isProtected && s.image == id)
  {
    forall id
      ensures ProtectedBySome(seen + [s], id) <==> ProtectedBySome(seen, id) || (s.isProtected && s.image == id)
    {
      if ProtectedBySome(seen, id) {
        var i :| 0 <= i < |seen| && seen[i].image == id && seen[i].isProtected;
        assert (seen + [s])[i] == seen[i];
      }
      assert (seen + [s])[|seen|] == s;
    }
  }

  // ---------- The order of attempts ----------

  /** When an image was last attempted, and by which operation. */
  datatype Attempt = Attempt(at: nat, op: Uuid)

  /** A ledger row of an automatic image operation. */
  datatype Row = Row(image: ImageId, attempt: Attempt)

  predicate Later(a: Attempt, b: Attempt) {
    a.at > b.at || (a.at == b.at && a.op > b.op)
  }

  /** Attempt `a` was made at the time of `b` or before; the operation decides between equal
      times. */
  ghost predicate NotAfter(a: Attempt, b: Attempt) {
    a.at < b.at || (a.at == b.at && a.op <= b.op)
  }

  /** The attempts of all operations but the resumed one. */
  ghost predicate LatestAttempts(rows: seq<Row>, resuming: Option<Uuid>, attempted: map<ImageId, Attempt>) {
    && (forall i :: 0 <= i < |rows| && Some(rows[i].attempt.op) != resuming ==>
          rows[i].image in attempted && NotAfter(rows[i].attempt, attempted[rows[i].image]))
    && (forall id :: id in attempted ==> Row(id, attempted[id]) in rows && Some(attempted[id].op) != resuming)
  }

  ghost predicate ReservedImages(rows: seq<Row>, resuming: Option<Uuid>, reserved: set<ImageId>) {
    forall id :: id in reserved <==> exists r :: r in rows && r.image == id && Some(r.attempt.op) == resuming
  }

  method ReadAttempts(rows: seq<Row>, resuming: Option<Uuid>) returns (attempted: map<ImageId, Attempt>, reserved: set<ImageId>)
    ensures LatestAttempts(rows, resuming, attempted)
    ensures ReservedImages(rows, resuming, reserved)
  {
    attempted, reserved := map[], {};
    for n := 0 to |rows|
      invariant LatestAttempts(rows[..n], resuming, attempted)
      invariant ReservedImages(rows[..n], resuming, reserved)
    {
      var row := rows[n];
      assert rows[..n + 1] == rows[..n] + [row];
      if Some(row.attempt.op) == resuming {
        reserved := reserved + {row.image};
      } else if row.image !in attempted || Later(row.attempt, attempted[row.image]) {
        attempted := attempted[row.image := row.attempt];
      }
    }
    assert rows[..|rows|] == rows;
  }

  /** The schedule: reserved images first, then never attempted ones, then the least
      recently attempted, and the identifier decides between equals. */
  predicate Before(reserved: set<ImageId>, attempted: map<ImageId, Attempt>, x: ImageId, y: ImageId) {
    if (x in reserved) != (y in reserved) then x in reserved
    else if x in attempted && y in attempted && attempted[x] != attempted[y] then Later(attempted[y], attempted[x])
    else if (x in attempted) != (y in attempted) then y in attempted
    else x < y
  }

  /** Image `x` is due at least as soon as `y`: a reserved image before any other, then one
      that was never attempted, then the one whose last attempt is older; and among equals
      the lower identifier. */
  ghost predicate IsDue(reserved: set<ImageId>, attempted: map<ImageId, Attempt>, x: ImageId, y: ImageId) {
    && (y in reserved ==> x in reserved)
    && ((x in reserved <==> y in reserved) ==>
          && (x in attempted ==> y in attempted && NotAfter(attempted[x], attempted[y]))
          && ((x in attempted <==> y in attempted) && (x in attempted ==> attempted[x] == attempted[y]) ==> x <= y))
  }

  lemma BeforeIsDue(reserved: set<ImageId>, attempted: map<ImageId, Attempt>, x: ImageId, y: ImageId)
    ensures Before(reserved, attempted, x, y) || x == y <==> IsDue(reserved, attempted, x, y)
  {
  }

  lemma BeforeIsStrictOrder(reserved: set<ImageId>, attempted: map<ImageId, Attempt>)
    ensures forall x :: !Before(reserved, attempted, x, x)
    ensures forall x, y :: x != y ==> Before(reserved, attempted, x, y) != Before(reserved, attempted, y, x)
    ensures forall x, y, z :: Before(reserved, attempted, x, y) && Before(reserved, attempted, y, z) ==> Before(reserved, attempted, x, z)
  {
  }

  /** `batch` holds the first images of the schedule, as many as fit. */
  ghost predicate IsBatch(eligible: set<ImageId>, reserved: set<ImageId>, attempted: map<ImageId, Attempt>, batch: set<ImageId>) {
    && batch <= eligible
    && |batch| == (if |eligible| < 100 then |eligible| else 100)
    && (forall x, y :: x in batch && y in eligible && y !in batch ==> IsDue(reserved, attempted, x, y))
  }

  function Members(s: seq<ImageId>): set<ImageId> {
    set x | x in s
  }

  lemma {:induction false} MembersOfDistinct(s: seq<ImageId>)
    requires NoDuplicates(s)
    ensures |Members(s)| == |s|
  {
    if s != [] {
      var t := s[..|s| - 1];
      MembersOfDistinct(t);
      assert Members(s) == Members(t) + {s[|s| - 1]};
    }
  }

  /** Sort by the schedule, truncate, then sort by identifier. */
  method NextBatch(candidates: seq<ImageId>, rows: seq<Row>, resuming: Option<Uuid>)
    returns (batch: seq<ImageId>, ghost attempted: map<ImageId, Attempt>, ghost reserved: set<ImageId>)
    requires NoDuplicates(candidates)
    ensures LatestAttempts(rows, resuming, attempted) && ReservedImages(rows, resuming, reserved)
    ensures IsBatch(Members(candidates), reserved, attempted, Members(batch))
    ensures forall i, j :: 0 <= i < j < |batch| ==> batch[i] < batch[j]
  {
    var latest, held := ReadAttempts(rows, resuming);
    attempted, reserved := latest, held;
    var order := (x: ImageId, y: ImageId) => x == y || Before(held, latest, x, y);
    var sorted := Sort(candidates, order);
    ScheduleOrdered(candidates, held, latest, order);
    var first := if |sorted| < MAX_CLEANUP_ITEMS then sorted else sorted[..MAX_CLEANUP_ITEMS];
    var byId := (x: ImageId, y: ImageId) => x <= y;
    SortPermutes(first, byId);
    SortKeepsDistinct(first, byId);
    SortSorts(first, byId);
    batch := Sort(first, byId);
    MembersOfDistinct(first);
    MembersOfDistinct(candidates);
    assert Members(batch) == Members(first);
    forall x, y | x in Members(first) && y in Members(candidates) && y !in Members(first)
      ensures IsDue(held, latest, x, y)
    {
      BeforeIsDue(held, latest, x, y);
    }
  }

  lemma ScheduleOrdered(candidates: seq<ImageId>, reserved: set<ImageId>, attempted: map<ImageId, Attempt>, order: (ImageId, ImageId) -> bool)
    requires NoDuplicates(candidates)
    requires forall x, y :: order(x, y) <==> x == y || Before(reserved, attempted, x, y)
    ensures var s := Sort(candidates, order);
            && |s| == |candidates| && NoDuplicates(s) && Members(s) == Members(candidates)
            && forall i, j :: 0 <= i < j < |s| ==> Before(reserved, attempted, s[i], s[j])
  {
    var s := Sort(candidates, order);
    BeforeIsStrictOrder(reserved, attempted);
    SortPermutes(candidates, order);
    SortKeepsDistinct(candidates, order);
    assert TotalOrder(order);
    SortSorts(candidates, order);
    forall i, j | 0 <= i < j < |s|
      ensures Before(reserved, attempted, s[i], s[j])
    {
      assert order(s[i], s[j]);
    }
  }

  // ---------- No starvation ----------

  /** How many eligible images come before `x`. */
  function Rank(eligible: set<ImageId>, attempted: map<ImageId, Attempt>, x: ImageId): nat {
    |Ahead(eligible, attempted, x)|
  }

  function Ahead(eligible: set<ImageId>, attempted: map<ImageId, Attempt>, x: ImageId): set<ImageId> {
    set y | y in eligible && Before({}, attempted, y, x)
  }

  datatype Pass = Pass(attempt: Attempt, batch: set<ImageId>)

  /** The attempts after a pass recorded its batch. */
  function Recorded(attempted: map<ImageId, Attempt>, p: Pass): map<ImageId, Attempt> {
    attempted + map x | x in p.batch :: p.attempt
  }

  /** Non-resumed passes over a fixed set of eligible images, each later than all before. */
  ghost predicate PassesFrom(eligible: set<ImageId>, attempted: map<ImageId, Attempt>, passes: seq<Pass>)
    decreases |passes|
  {
    passes != [] ==>
      && IsBatch(eligible, {}, attempted, passes[0].batch)
      && (forall id :: id in attempted ==> attempted[id].at < passes[0].attempt.at)
      && PassesFrom(eligible, Recorded(attempted, passes[0]), passes[1..])
  }

  lemma SubsetSize(a: set<ImageId>, b: set<ImageId>)
    requires a <= b
    ensures |a| <= |b| && |b - a| == |b| - |a|
  {
  }

  /** An image is in the batch exactly when fewer than a full batch are ahead of it. */
  lemma BatchIsByRank(eligible: set<ImageId>, attempted: map<ImageId, Attempt>, batch: set<ImageId>, x: ImageId)
    requires IsBatch(eligible, {}, attempted, batch) && x in eligible
    ensures x in batch <==> Rank(eligible, attempted, x) < 100
    ensures x !in batch ==> batch <= Ahead(eligible, attempted, x) && |batch| == 100
  {
    var ahead := Ahead(eligible, attempted, x);
    BeforeIsStrictOrder({}, attempted);
    forall y, z
      ensures Before({}, attempted, y, z) || y == z <==> IsDue({}, attempted, y, z)
    {
      BeforeIsDue({}, attempted, y, z);
    }
    if x in batch {
      assert ahead <= batch - {x};
      SubsetSize(ahead, batch - {x});
    } else {
      assert batch <= ahead;
      SubsetSize(batch, ahead);
      SubsetSize(batch, eligible);
      SubsetSize(batch + {x}, eligible);
    }
  }

  /** The measure: an image that is passed over moves up by exactly one batch. */
  lemma RankDrops(eligible: set<ImageId>, attempted: map<ImageId, Attempt>, p: Pass, x: ImageId)
    requires IsBatch(eligible, {}, attempted, p.batch) && x in eligible && x !in p.batch
    requires forall id :: id in attempted ==> attempted[id].at < p.attempt.at
    ensures Rank(eligible, Recorded(attempted, p), x) == Rank(eligible, attempted, x) - 100
  {
    var after := Recorded(attempted, p);
    BatchIsByRank(eligible, attempted, p.batch, x);
    assert Ahead(eligible, after, x) == Ahead(eligible, attempted, x) - p.batch;
    SubsetSize(p.batch, Ahead(eligible, attempted, x));
  }

  /** Every eligible image is attempted exactly when its turn comes, which its rank tells
      in advance. */
  lemma {:induction false} TurnComes(eligible: set<ImageId>, attempted: map<ImageId, Attempt>, passes: seq<Pass>, x: ImageId)
    requires PassesFrom(eligible, attempted, passes) && x in eligible
    requires Rank(eligible, attempted, x) / 100 < |passes|
    ensures x in passes[Rank(eligible, attempted, x) / 100].batch
    ensures forall i :: 0 <= i < Rank(eligible, attempted, x) / 100 ==> x !in passes[i].batch
    decreases |passes|
  {
    var p, after := passes[0], Recorded(attempted, passes[0]);
    BatchIsByRank(eligible, attempted, p.batch, x);
    if x !in p.batch {
      RankDrops(eligible, attempted, p, x);
      TurnComes(eligible, after, passes[1..], x);
      forall i | 0 <= i < Rank(eligible, attempted, x) / 100
        ensures x !in passes[i].batch
      {
        assert i > 0 ==> passes[i] == passes[1..][i - 1];
      }
    }
  }

  /** No starvation: with n eligible images, ceil(n / 100) passes attempt all of them. */
  lemma NoStarvation(eligible: set<ImageId>, attempted: map<ImageId, Attempt>, passes: seq<Pass>, x: ImageId)
    requires PassesFrom(eligible, attempted, passes) && x in eligible
    requires |passes| * 100 >= |eligible|
    ensures exists i :: 0 <= i < |passes| && x in passes[i].batch
  {
    BeforeIsStrictOrder({}, attempted);
    SubsetSize(Ahead(eligible, attempted, x), eligible - {x});
    TurnComes(eligible, attempted, passes, x);
  }

  // ---------- Passes over the ledger ----------

  /** The ledger rows that publishing a batch adds. */
  function RowsOf(batch: seq<ImageId>, attempt: Attempt): seq<Row> {
    seq(|batch|, i requires 0 <= i < |batch| => Row(batch[i], attempt))
  }

  lemma LatestIsUnique(rows: seq<Row>, a: map<ImageId, Attempt>, b: map<ImageId, Attempt>)
    requires LatestAttempts(rows, None, a) && LatestAttempts(rows, None, b)
    ensures a == b
  {
  }

  /** Publishing a later batch is what `Recorded` says. */
  lemma PublishedAttempts(rows: seq<Row>, attempted: map<ImageId, Attempt>, batch: seq<ImageId>, attempt: Attempt)
    requires LatestAttempts(rows, None, attempted)
    requires forall r :: r in rows ==> r.attempt.at < attempt.at
    ensures LatestAttempts(rows + RowsOf(batch, attempt), None, Recorded(attempted, Pass(attempt, Members(batch))))
  {
    var rows', after := rows + RowsOf(batch, attempt), Recorded(attempted, Pass(attempt, Members(batch)));
    forall i | 0 <= i < |rows'|
      ensures rows'[i].image in after && NotAfter(rows'[i].attempt, after[rows'[i].image])
    {
      if i < |rows| {
        assert rows'[i] == rows[i] && rows[i] in rows;
      } else {
        assert rows'[i] == Row(batch[i - |rows|], attempt);
      }
    }
    forall id | id in after
      ensures Row(id, after[id]) in rows'
    {
      if id in Members(batch) {
        var i :| 0 <= i < |batch| && batch[i] == id;
        assert rows'[|rows| + i] == Row(id, attempt);
      }
    }
  }

  ghost predicate Increasing(attempts: seq<Attempt>) {
    forall i, j :: 0 <= i < j < |attempts| ==> attempts[i].at < attempts[j].at
  }

  ghost predicate AllBefore(rows: seq<Row>, attempts: seq<Attempt>) {
    attempts != [] ==> forall r :: r in rows ==> r.attempt.at < attempts[0].at
  }

  lemma StillBefore(rows: seq<Row>, batch: seq<ImageId>, attempts: seq<Attempt>)
    requires attempts != [] && Increasing(attempts) && AllBefore(rows, attempts)
    ensures AllBefore(rows + RowsOf(batch, attempts[0]), attempts[1..]) && Increasing(attempts[1..])
  {
  }

  /** What a run of passes produced: the batches, and the same run as abstract passes. */
  ghost predicate RunOf(candidates: seq<ImageId>, attempted: map<ImageId, Attempt>, batches: seq<seq<ImageId>>, passes: seq<Pass>) {
    && |batches| == |passes| && PassesFrom(Members(candidates), attempted, passes)
    && (forall i :: 0 <= i < |batches| ==> passes[i].batch == Members(batches[i]))
  }

  lemma RunGrows(candidates: seq<ImageId>, attempted: map<ImageId, Attempt>, rows: seq<Row>, batch: seq<ImageId>, attempt: Attempt,
                 after: map<ImageId, Attempt>, rest: seq<seq<ImageId>>, others: seq<Pass>)
    requires LatestAttempts(rows, None, attempted) && forall r :: r in rows ==> r.attempt.at < attempt.at
    requires IsBatch(Members(candidates), {}, attempted, Members(batch))
    requires LatestAttempts(rows + RowsOf(batch, attempt), None, after) && RunOf(candidates, after, rest, others)
    ensures RunOf(candidates, attempted, [batch] + rest, [Pass(attempt, Members(batch))] + others)
  {
    var p := Pass(attempt, Members(batch));
    PublishedAttempts(rows, attempted, batch, attempt);
    LatestIsUnique(rows + RowsOf(batch, attempt), after, Recorded(attempted, p));
    assert ([p] + others)[1..] == others;
    forall id | id in attempted
      ensures attempted[id].at < attempt.at
    {
      assert Row(id, attempted[id]) in rows;
    }
  }

  /** Repeated automatic passes: each reads the ledger, takes its batch and publishes it. */
  method RunPasses(candidates: seq<ImageId>, rows: seq<Row>, attempts: seq<Attempt>)
    returns (batches: seq<seq<ImageId>>, ghost attempted: map<ImageId, Attempt>, ghost passes: seq<Pass>)
    requires NoDuplicates(candidates) && Increasing(attempts) && AllBefore(rows, attempts)
    ensures |batches| == |attempts|
    ensures LatestAttempts(rows, None, attempted) && RunOf(candidates, attempted, batches, passes)
    decreases |attempts|
  {
    if attempts == [] {
      var latest, held := ReadAttempts(rows, None);
      batches, attempted, passes := [], latest, [];
    } else {
      var batch, rest;
      ghost var reserved, after, others;
      batch, attempted, reserved := NextBatch(candidates, rows, None);
      assert reserved == {};
      StillBefore(rows, batch, attempts);
      rest, after, others := RunPasses(candidates, rows + RowsOf(batch, attempts[0]), attempts[1..]);
      RunGrows(candidates, attempted, rows, batch, attempts[0], after, rest, others);
      batches, passes := [batch] + rest, [Pass(attempts[0], Members(batch))] + others;
    }
  }

  /** As many passes as there are batches of candidates attempt every candidate. */
  method AttemptAll(candidates: seq<ImageId>, rows: seq<Row>, attempts: seq<Attempt>) returns (batches: seq<seq<ImageId>>)
    requires NoDuplicates(candidates) && Increasing(attempts) && AllBefore(rows, attempts)
    requires |attempts| * 100 >= |candidates|
    ensures |batches| == |attempts|
    ensures forall x :: x in candidates ==> exists i :: 0 <= i < |batches| && x in batches[i]
  {
    ghost var attempted, passes;
    batches, attempted, passes := RunPasses(candidates, rows, attempts);
    MembersOfDistinct(candidates);
    forall x | x in candidates
      ensures exists i :: 0 <= i < |batches| && x in batches[i]
    {
      NoStarvation(Members(candidates), attempted, passes, x);
      var i :| 0 <= i < |passes| && x in passes[i].batch;
      assert x in batches[i];
    }
  }

  /** A resumed pass keeps every item of the reserved batch that is still eligible. */
  lemma ReservedSurvive(eligible: set<ImageId>, reserved: set<ImageId>, attempted: map<ImageId, Attempt>, batch: set<ImageId>)
    requires IsBatch(eligible, reserved, attempted, batch) && |reserved| <= 100
    ensures eligible * reserved <= batch
  {
    forall x | x in eligible * reserved
      ensures x in batch
    {
      if x !in batch {
        assert batch + {x} <= reserved;
        SubsetSize(batch + {x}, reserved);
        SubsetSize(batch + {x}, eligible);
        assert false;
      }
    }
  }
}
