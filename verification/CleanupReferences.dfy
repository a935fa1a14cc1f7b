/** Referential integrity: a release in the store never loses the configuration
    revision it names, in no state that a power loss can leave. */
module CleanupReferences {
  import opened Artifacts
  import opened CleanupModel
  import opened CleanupSteps

  ghost predicate Refs(canonical: map<Artifact, Inode>) {
    forall r, v :: r in canonical && Names(r, v) ==> v in canonical
  }

  ghost predicate WorldRefs(w: World) {
    forall e {:trigger Refs(e.fs.canonical)} :: e in w.log ==> Refs(e.fs.canonical)
  }

  /** Artifact `r` is planned before position `i`. */
  ghost predicate Precedes(plan: seq<Artifact>, r: Artifact, i: nat)
    requires i <= |plan|
  {
    r in plan[..i]
  }

  /** Every release in the store that names item `i` is planned before it. */
  ghost predicate CoveredItem(plan: seq<Artifact>, i: nat, canonical: map<Artifact, Inode>)
    requires i < |plan|
  {
    forall r :: r in canonical && Names(r, plan[i]) ==> Precedes(plan, r, i)
  }

  lemma SyncKeepsRefs(w: World, d: Dir)
    requires Inv(w)
    ensures WorldRefs(w) ==> WorldRefs(Synced(w, d))
  {
    FlushKeepsLog(w.log, d);
  }

  lemma AppendKeepsRefs(w: World, dirs: set<Dir>, fs: Fs)
    requires |w.log| > 0 && fs.canonical == Visible(w).canonical
    ensures WorldRefs(w) ==> WorldRefs(Append(w, dirs, fs))
  {
  }

  /** A revision that already left the store is named by no release in it. */
  lemma MissingIsCovered(w: World, plan: seq<Artifact>, i: nat)
    requires |w.log| > 0 && WorldRefs(w) && i < |plan| && plan[i] !in Visible(w).canonical
    ensures CoveredItem(plan, i, Visible(w).canonical)
  {
    assert w.log[|w.log| - 1] in w.log;
    assert Refs(Visible(w).canonical);
  }

  /** Detaching item `i` keeps every reference if all releases that name it are
      planned before it: the ones planned before it are gone. */
  lemma MoveKeepsRefs(w: World, op: OpId, i: nat)
    requires Inv(w) && CanMove(w, op, i) && WorldRefs(w)
    requires CoveredItem(w.db[op].plan, i, Visible(w).canonical)
    ensures WorldRefs(Moved(w, op, i))
  {
    var fs, o := Visible(w), w.db[op];
    var fs' := Visible(Moved(w, op, i));
    assert w.log[|w.log| - 1] in w.log;
    assert Refs(fs.canonical);
    forall r, v | r in fs'.canonical && Names(r, v)
      ensures v in fs'.canonical
    {
      if v == o.plan[i] {
        var j :| 0 <= j < i && o.plan[j] == r;
        VisibleHolds(w, op);
        PlannedIsBorn(op, o, TrashOf(fs, op), fs.canonical, w.born, j);
        assert false;
      }
    }
  }
}
