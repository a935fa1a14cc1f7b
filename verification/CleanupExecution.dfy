/** A whole execution of an artifact plan, new or resumed. */
module CleanupExecution {
  import opened Artifacts
  import opened Faults
  import opened CleanupModel
  import opened CleanupSteps
  import opened CleanupReferences
  import opened CleanupEffects
  import opened CleanupDetach
  import opened CleanupLoop

  datatype ExecResult = Completed(body: Body) | Interrupted

  /** exact_terminal_items: the public items, if every item is recorded. */
  method ExactTerminalItems(o: Operation) returns (r: Option<seq<PublicItem>>)
    requires |o.plan| == |o.items|
    ensures r.Some? <==> AllTerminal(o.items)
    ensures r.Some? ==> r.value == PublicItems(o.plan, o.items)
    ensures r.Some? ==> |r.value| == |o.plan| && forall i :: 0 <= i < |o.plan| ==> TellsItem(o.plan[i], i, o.items[i], r.value[i])
  {
    var items := [];
    for i := 0 to |o.plan|
      invariant |items| == i
      invariant forall j :: 0 <= j < i ==> o.items[j] != Planned
      invariant forall j :: 0 <= j < i ==> items[j] == PublicItemOf(o.plan[j], j, o.items[j])
    {
      if o.items[i] == Planned {
        return None;
      }
      items := items + [PublicItemOf(o.plan[i], i, o.items[i])];
    }
    r := Some(items);
  }

  /** UPDATE ... SET status='running' WHERE status='planned' */
  method MarkRunning(m0: Machine, op: OpId) returns (m: Machine, o: Outcome)
    requires Inv(m0.w) && op in m0.w.db
    requires forall e :: e in m0.w.log ==> TrashOf(e.fs, op).dir.Some?
    ensures Inv(m.w) && m.w.log == m0.w.log && OnlyOp(m0.w, m.w, op)
    ensures m.w.db[op] == m0.w.db[op] || m.w.db[op] == m0.w.db[op].(status := StRunning)
    ensures o == Done ==> m.w.db[op].status != StPlanned
    ensures m0.faults == [] ==> o == Done && m.faults == []
  {
    if m0.w.db[op].status == StPlanned {
      RunningKeepsInv(m0.w, op);
      m, o := ChangeRow(m0, op, m0.w.db[op].(status := StRunning));
    } else {
      m, o := Read(m0);
    }
  }

  /** The terminal status and the response, both computed from the ledger. */
  method Conclude(m0: Machine, op: OpId) returns (m: Machine, r: ExecResult)
    requires Inv(m0.w) && op in m0.w.db && m0.w.db[op].status != StPlanned
    requires |m0.w.db[op].plan| == |m0.w.db[op].items| && AllTerminal(m0.w.db[op].items)
    ensures Inv(m.w) && m.w.log == m0.w.log && OnlyOp(m0.w, m.w, op)
    ensures m.w.db[op] == m0.w.db[op].(status := m.w.db[op].status)
    ensures r.Completed? ==> Terminal(m.w.db[op].status) && r.body == ExpectedBody(op, m.w.db[op])
    ensures r.Completed? ==> TellsBody(op, m.w.db[op], r.body) && TellsOutcome(m.w.db[op].status, m.w.db[op].items)
    ensures m0.faults == [] ==> r.Completed? && m.faults == []
  {
    var o;
    RowFacts(m0.w, op);
    ExpectedBodyTells(op, m0.w.db[op]);
    var items := ExactTerminalItems(m0.w.db[op]);
    if m0.w.db[op].status == StRunning {
      CompletionKeepsInv(m0.w, op);
      m, o := ChangeRow(m0, op, m0.w.db[op].(status := FinalStatus(m0.w.db[op].items)));
    } else {
      m, o := Read(m0);
    }
    r := if o == Done then Completed(Body(op, m0.w.db[op].plan, FinalStatus(m0.w.db[op].items), items.value)) else Interrupted;
  }

  /** The steps before the loop: they move nothing. */
  ghost predicate Started(w0: World, w1: World, op: OpId) {
    && OnlyOp(w0, w1, op) && op in w0.db
    && w1.db[op] == w0.db[op].(status := w1.db[op].status)
    && Visible(w1).canonical == Visible(w0).canonical
    && PayloadKeys(TrashOf(Visible(w1), op)) == PayloadKeys(TrashOf(Visible(w0), op))
  }

  method Start(m0: Machine, op: OpId) returns (m: Machine, ok: bool)
    requires Inv(m0.w) && op in m0.w.db && m0.w.db[op].proof.Recoverable?
    ensures Inv(m.w) && Started(m0.w, m.w, op)
    ensures ok ==> m.w.db[op].status != StPlanned
    ensures WorldRefs(m0.w) ==> WorldRefs(m.w)
    ensures m0.faults == [] ==> ok && m.faults == []
  {
    var o;
    m, o := Prepare(m0, op);
    if o == Done {
      m, o := MarkRunning(m, op);
    }
    ok := o == Done;
  }

  lemma StartedThenExecuted(w0: World, w1: World, w2: World, op: OpId)
    requires Started(w0, w1, op) && ExecFrame(w1, w2, op)
    ensures ExecFrame(w0, w2, op)
  {
  }

  lemma ExecutedThenConcluded(w0: World, w1: World, w2: World, op: OpId)
    requires ExecFrame(w0, w1, op) && w2.log == w1.log && OnlyOp(w1, w2, op)
    requires w2.db[op] == w1.db[op].(status := w2.db[op].status)
    ensures ExecFrame(w0, w2, op)
  {
  }

  /** execute_artifacts, for a new operation or a resumed one. `eligible` is what a
      fresh plan still allows; a new operation has no such restriction. */
  method ExecuteArtifacts(m0: Machine, op: OpId, eligible: Option<set<Artifact>>) returns (m: Machine, r: ExecResult)
    requires Inv(m0.w) && op in m0.w.db && m0.w.db[op].proof.Recoverable?
    ensures Inv(m.w) && ExecFrame(m0.w, m.w, op) && OnlyEligibleLeft(m0.w, m.w, eligible)
    ensures r.Completed? ==> Terminal(m.w.db[op].status) && AllTerminal(m.w.db[op].items) && r.body == ExpectedBody(op, m.w.db[op])
    ensures r.Completed? ==> TellsBody(op, m.w.db[op], r.body) && TellsOutcome(m.w.db[op].status, m.w.db[op].items)
    ensures WorldRefs(m0.w) && Covered(m0.w.db[op], eligible, Visible(m0.w).canonical) ==> WorldRefs(m.w)
    ensures m0.faults == [] ==> r.Completed? && m.faults == [] && Settled(m0.w, m.w, op, eligible, |m0.w.db[op].plan|)
  {
    RowFacts(m0.w, op);
    r := Interrupted;
    var ok;
    m, ok := Start(m0, op);
    if ok {
      var m1 := m;
      m, ok := ProcessItems(m, op, eligible);
      StartedThenExecuted(m0.w, m1.w, m.w, op);
      if ok {
        var m2 := m;
        RowFacts(m.w, op);
        m, r := Conclude(m, op);
        ExecutedThenConcluded(m0.w, m2.w, m.w, op);
      }
    }
  }
}
