/** The primitive effects of artifact cleanup under faults, and the frames that say what
    a step, a turn or a run may change. Every effect consumes one fault of a schedule, so
    each method is verified for every way of being interrupted; with an empty schedule it
    runs undisturbed. */
module CleanupEffects {
  import opened Artifacts
  import opened Faults
  import opened CleanupModel
  import opened CleanupSteps
  import opened CleanupReferences

  datatype Machine = Machine(w: World, faults: seq<Fault>)

  /** The machine after one primitive effect whose completion gives world `w`. */
  function Effect(m: Machine, w: World): Machine {
    Machine(if TakesEffect(NextFault(m.faults)) then w else m.w, LaterFaults(m.faults))
  }

  /** An effect takes place unless its fault comes before it, and uses up one fault. */
  lemma EffectOfFault(w0: World, w: World, f: Fault, rest: seq<Fault>)
    ensures Effect(Machine(w0, [f] + rest), w) == Machine(if f == ErrorBefore || f == CrashBefore then w0 else w, rest)
    ensures Effect(Machine(w0, []), w) == Machine(w, [])
  {
    assert ([f] + rest)[1..] == rest;
  }

  // ---------- Frames ----------

  /** What a fresh plan still allows; a new operation has no such restriction. */
  predicate IsEligible(eligible: Option<set<Artifact>>, a: Artifact) {
    eligible.None? || a in eligible.value
  }

  /** Nothing but operation `op` changed. */
  ghost predicate OnlyOp(w0: World, w1: World, op: OpId) {
    && |w0.log| > 0 && |w1.log| > 0
    && w1.born == w0.born && w1.db.Keys == w0.db.Keys
    && Durable(w1).Keys <= Durable(w0).Keys
    && (forall y :: y in w0.db && y != op ==> w1.db[y] == w0.db[y])
    && (forall y :: y != op ==> TrashOf(Visible(w1), y) == TrashOf(Visible(w0), y))
  }

  /** Nothing in the store changed except that planned artifacts may have left it. */
  ghost predicate OnlyPlannedLeft(w0: World, w1: World, plan: seq<Artifact>)
    requires |w0.log| > 0 && |w1.log| > 0
  {
    && Visible(w1).canonical.Keys <= Visible(w0).canonical.Keys
    && (forall a :: a in Visible(w0).canonical && a !in plan ==> a in Visible(w1).canonical)
  }

  /** Nothing left the store that is not eligible. */
  ghost predicate OnlyEligibleLeft(w0: World, w1: World, eligible: Option<set<Artifact>>)
    requires |w0.log| > 0 && |w1.log| > 0
  {
    forall a :: a in Visible(w0).canonical && !IsEligible(eligible, a) ==> a in Visible(w1).canonical
  }

  /** Only item `i` changed, and only if it was planned. */
  ghost predicate OnlyItem(before: seq<ItemStatus>, after: seq<ItemStatus>, i: nat)
    requires i < |before|
  {
    after == before || (before[i] == Planned && |after| == |before| && after == before[i := after[i]])
  }

  /** What one turn of the loop may change: item `i`, its place, and nothing else. */
  ghost predicate ItemStep(w0: World, w1: World, op: OpId, i: nat) {
    && OnlyOp(w0, w1, op)
    && op in w0.db && i < |w0.db[op].plan| == |w0.db[op].items|
    && w1.db[op] == w0.db[op].(items := w1.db[op].items)
    && OnlyItem(w0.db[op].items, w1.db[op].items, i)
    && OnlyPlannedLeft(w0, w1, [w0.db[op].plan[i]])
    && (forall j :: j != i ==> (j in PayloadKeys(TrashOf(Visible(w1), op)) <==> j in PayloadKeys(TrashOf(Visible(w0), op))))
  }

  /** The plan and the proof are immutable during execution, and a recorded item never changes. */
  ghost predicate SameOperation(o0: Operation, o1: Operation) {
    && |o0.plan| == |o0.items| && |o1.items| == |o0.items|
    && o1 == o0.(items := o1.items, status := o1.status)
    && (forall i :: 0 <= i < |o0.items| && o0.items[i] != Planned ==> o1.items[i] == o0.items[i])
  }

  /** What an execution may change. */
  ghost predicate ExecFrame(w0: World, w1: World, op: OpId) {
    && OnlyOp(w0, w1, op) && op in w0.db
    && SameOperation(w0.db[op], w1.db[op])
    && OnlyPlannedLeft(w0, w1, w0.db[op].plan)
  }

  // ---------- Primitive effects ----------

  /** A read of the store or the ledger: it may fail but changes nothing. */
  method Read(m0: Machine) returns (m: Machine, o: Outcome)
    ensures m.w == m0.w
    ensures m0.faults == [] ==> o == Done && m.faults == []
  {
    m := Effect(m0, m0.w);
    o := Report(NextFault(m0.faults));
  }

  method Sync(m0: Machine, d: Dir) returns (m: Machine, o: Outcome)
    requires Inv(m0.w)
    ensures Inv(m.w) && m.w.db == m0.w.db && m.w.born == m0.w.born
    ensures Visible(m.w) == Visible(m0.w) && Durable(m.w).Keys <= Durable(m0.w).Keys
    ensures WorldRefs(m0.w) ==> WorldRefs(m.w)
    ensures o == Done ==> m.w == Synced(m0.w, d)
    ensures m0.faults == [] ==> o == Done && m.faults == []
  {
    SyncKeepsInv(m0.w, d);
    SyncKeepsRefs(m0.w, d);
    m := Effect(m0, Synced(m0.w, d));
    o := Report(NextFault(m0.faults));
  }

  method ChangeTrash(m0: Machine, op: OpId, t: Trash, dirs: set<Dir>) returns (m: Machine, o: Outcome)
    requires Inv(m0.w) && op in m0.w.db
    requires OpInv(op, m0.w.db[op], t, Visible(m0.w).canonical, m0.w.born)
    requires StaysOutside(op, dirs, TrashOf(Visible(m0.w), op), t)
    ensures Inv(m.w) && m.w.db == m0.w.db && OnlyOp(m0.w, m.w, op)
    ensures Visible(m.w).canonical == Visible(m0.w).canonical
    ensures m.w == m0.w || TrashOf(Visible(m.w), op) == t
    ensures forall e :: e in m.w.log ==> e in m0.w.log || TrashOf(e.fs, op) == t
    ensures WorldRefs(m0.w) ==> WorldRefs(m.w)
    ensures o == Done ==> TrashOf(Visible(m.w), op) == t
    ensures m0.faults == [] ==> o == Done && m.faults == []
  {
    TrashStep(m0.w, op, t, dirs);
    AppendKeepsRefs(m0.w, dirs, Visible(WithTrash(m0.w, op, t, dirs)));
    m := Effect(m0, WithTrash(m0.w, op, t, dirs));
    o := Report(NextFault(m0.faults));
  }

  method ChangeRow(m0: Machine, op: OpId, row: Operation) returns (m: Machine, o: Outcome)
    requires Inv(m0.w) && op in m0.w.db && Inv(WithRow(m0.w, op, row))
    ensures Inv(m.w) && m.w.log == m0.w.log && OnlyOp(m0.w, m.w, op)
    ensures m.w.db[op] == m0.w.db[op] || m.w.db[op] == row
    ensures o == Done ==> m.w.db[op] == row
    ensures m0.faults == [] ==> o == Done && m.faults == []
  {
    m := Effect(m0, WithRow(m0.w, op, row));
    o := Report(NextFault(m0.faults));
  }

  /** The detaching rename. */
  method Rename(m0: Machine, op: OpId, i: nat) returns (m: Machine, o: Outcome)
    requires Inv(m0.w) && CanMove(m0.w, op, i)
    ensures Inv(m.w) && m.w.db == m0.w.db && ItemStep(m0.w, m.w, op, i)
    ensures WorldRefs(m0.w) && CoveredItem(m0.w.db[op].plan, i, Visible(m0.w).canonical) ==> WorldRefs(m.w)
    ensures o == Done ==> m.w.db[op].plan[i] !in Visible(m.w).canonical
    ensures m0.faults == [] ==> o == Done && m.faults == []
  {
    MoveKeepsInv(m0.w, op, i);
    MoveIsItemStep(m0.w, op, i);
    if WorldRefs(m0.w) && CoveredItem(m0.w.db[op].plan, i, Visible(m0.w).canonical) {
      MoveKeepsRefs(m0.w, op, i);
    }
    m := Effect(m0, Moved(m0.w, op, i));
    o := Report(NextFault(m0.faults));
  }

  lemma MoveIsItemStep(w: World, op: OpId, i: nat)
    requires CanMove(w, op, i)
    ensures ItemStep(w, Moved(w, op, i), op, i)
    ensures w.db[op].plan[i] !in Visible(Moved(w, op, i)).canonical
  {
    var w' := Moved(w, op, i);
    assert Visible(w').canonical == Visible(w).canonical - {w.db[op].plan[i]};
    assert PayloadKeys(TrashOf(Visible(w'), op)) == PayloadKeys(TrashOf(Visible(w), op)) + {i};
  }
}
