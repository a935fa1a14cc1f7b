/** Write-ahead removal of images: the ledger, the engine and every way a run can be
    interrupted. The history records what happened across all runs, and an event is
    allowed only in a history that justifies it. */
module ImageRemoval {
  import opened Artifacts
  import opened Faults

  datatype ItemState = Planned | Started | Removed | Retained

  /** What inspecting an image shows: nothing, the planned image, or another one. */
  datatype Observation = Absent | Matching | Different

  datatype Event =
    | RunBegan(eligible: set<nat>)
    | Inspected(item: nat, seen: Observation)
    | Recorded(item: nat, state: ItemState)
    | RemoveCalled(item: nat, accepted: bool)

  /** How the environment answers one step: what is seen, whether a removal is
      accepted, and how the step goes wrong. A script that has run out means that the
      process died. */
  datatype Reply = Reply(seen: Observation, accepted: bool, fault: Fault)

  datatype Machine = Machine(ledger: seq<ItemState>, history: seq<Event>, script: seq<Reply>)

  datatype ResultBody = ResultBody(withFailures: bool, items: seq<ItemState>)

  /** The longest way through one item. */
  const STEPS_PER_ITEM: nat := 5

  predicate IsTerminal(s: ItemState) {
    s == Removed || s == Retained
  }

  // ---------- Histories ----------

  /** The ledger that a history leaves behind. */
  function LedgerAfter(n: nat, h: seq<Event>): (l: seq<ItemState>)
    ensures |l| == n
  {
    if h == [] then seq(n, _ => Planned)
    else
      var l, e := LedgerAfter(n, h[..|h| - 1]), h[|h| - 1];
      if e.Recorded? && e.item < n then l[e.item := e.state] else l
  }

  /** The eligible items of the current run. */
  function EligibleNow(h: seq<Event>): set<nat> {
    if h == [] then {}
    else if h[|h| - 1].RunBegan? then h[|h| - 1].eligible
    else EligibleNow(h[..|h| - 1])
  }

  /** The history without ledger records. */
  function Steps(h: seq<Event>): seq<Event> {
    if h == [] then []
    else if h[|h| - 1].Recorded? then Steps(h[..|h| - 1])
    else Steps(h[..|h| - 1]) + [h[|h| - 1]]
  }

  /** The state that the history dictates for item `i`, if the last step was about it. An
      absent image counts as removed only if its removal was started; an image that is
      not eligible, not the planned one, refused, or still there after an accepted removal
      is retained; otherwise the removal may start. */
  function Verdict(n: nat, h: seq<Event>, i: nat): Option<ItemState>
    requires i < n
  {
    var t := Steps(h);
    if t == [] then None
    else
      match t[|t| - 1]
      case Inspected(j, seen) =>
        if j != i then None
        else if seen == Absent then Some(if LedgerAfter(n, h)[i] == Started then Removed else Retained)
        else if seen == Different || i !in EligibleNow(h) || (|t| > 1 && t[|t| - 2] == RemoveCalled(i, true)) then Some(Retained)
        else Some(Started)
      case RemoveCalled(j, accepted) => if j == i && !accepted then Some(Retained) else None
      case _ => None
  }

  /** What may happen next: a record is exactly what the history dictates and never
      replaces a terminal state, and a removal needs a durable start besides. */
  ghost predicate Allowed(n: nat, h: seq<Event>, e: Event) {
    match e
    case RunBegan(_) => true
    case Inspected(i, _) => i < n
    case Recorded(i, s) => i < n && !IsTerminal(LedgerAfter(n, h)[i]) && Verdict(n, h, i) == Some(s)
    case RemoveCalled(i, _) => i < n && LedgerAfter(n, h)[i] == Started && Verdict(n, h, i) == Some(Started)
  }

  ghost predicate HistoryOk(n: nat, h: seq<Event>) {
    forall k {:trigger Allowed(n, h[..k], h[k])} :: 0 <= k < |h| ==> Allowed(n, h[..k], h[k])
  }

  ghost predicate Consistent(n: nat, m: Machine) {
    HistoryOk(n, m.history) && m.ledger == LedgerAfter(n, m.history)
  }

  /** Terminal items are final. */
  ghost predicate Keeps(before: seq<ItemState>, after: seq<ItemState>) {
    |after| == |before| && forall i :: 0 <= i < |before| && IsTerminal(before[i]) ==> after[i] == before[i]
  }

  lemma HistoryGrows(n: nat, h: seq<Event>, e: Event)
    requires HistoryOk(n, h) && Allowed(n, h, e)
    ensures HistoryOk(n, h + [e])
    ensures (h + [e])[..|h|] == h
  {
    var h' := h + [e];
    forall k | 0 <= k < |h'|
      ensures Allowed(n, h'[..k], h'[k])
    {
      if k < |h| {
        assert h'[..k] == h[..k] && Allowed(n, h[..k], h[k]);
      } else {
        assert h'[..k] == h;
      }
    }
  }

  // ---------- One run ----------

  function NextReply(m: Machine): Reply {
    if m.script == [] then Reply(Absent, false, CrashBefore) else m.script[0]
  }

  function Rest(m: Machine): seq<Reply> {
    if m.script == [] then [] else m.script[1..]
  }

  /** No step of the script goes wrong. */
  ghost predicate Calm(script: seq<Reply>) {
    forall i :: 0 <= i < |script| ==> script[i].fault == Clean
  }

  /** At most `k` steps were taken, and if the script was calm it still is. */
  ghost predicate Used(m0: Machine, m: Machine, k: nat) {
    |m.script| + k >= |m0.script| && (Calm(m0.script) ==> Calm(m.script))
  }

  /** The history moved on without losing anything. */
  ghost predicate Extends(m0: Machine, m: Machine) {
    m0.history <= m.history && Keeps(m0.ledger, m.ledger)
  }

  method Inspect(n: nat, m0: Machine, i: nat) returns (m: Machine, ok: bool, seen: Observation)
    requires Consistent(n, m0) && i < n
    ensures Consistent(n, m) && Extends(m0, m) && m.ledger == m0.ledger
    ensures EligibleNow(m.history) == EligibleNow(m0.history)
    ensures Used(m0, m, 1) && (Calm(m0.script) && |m0.script| >= 1 ==> ok)
    ensures Steps(m.history) == if ok then Steps(m0.history) + [Inspected(i, seen)] else Steps(m0.history)
  {
    var reply := NextReply(m0);
    seen, ok := reply.seen, Report(reply.fault) == Done;
    if ok {
      HistoryGrows(n, m0.history, Inspected(i, seen));
      m := Machine(m0.ledger, m0.history + [Inspected(i, seen)], Rest(m0));
    } else {
      m := m0.(script := Rest(m0));
    }
  }

  /** One committed update of the ledger, or none. */
  method Record(n: nat, m0: Machine, i: nat, s: ItemState) returns (m: Machine, ok: bool)
    requires Consistent(n, m0) && Allowed(n, m0.history, Recorded(i, s))
    ensures Consistent(n, m) && Extends(m0, m)
    ensures m.ledger == m0.ledger || m.ledger == m0.ledger[i := s]
    ensures ok ==> m.ledger == m0.ledger[i := s]
    ensures Used(m0, m, 1) && (Calm(m0.script) && |m0.script| >= 1 ==> ok)
    ensures EligibleNow(m.history) == EligibleNow(m0.history) && Steps(m.history) == Steps(m0.history)
  {
    var fault := NextReply(m0).fault;
    ok := Report(fault) == Done;
    if !TakesEffect(fault) {
      m := m0.(script := Rest(m0));
    } else {
      HistoryGrows(n, m0.history, Recorded(i, s));
      m := Machine(m0.ledger[i := s], m0.history + [Recorded(i, s)], Rest(m0));
    }
  }

  method Remove(n: nat, m0: Machine, i: nat) returns (m: Machine, ok: bool, accepted: bool)
    requires Consistent(n, m0) && i < n && m0.ledger[i] == Started && Verdict(n, m0.history, i) == Some(Started)
    ensures Consistent(n, m) && Extends(m0, m) && m.ledger == m0.ledger
    ensures EligibleNow(m.history) == EligibleNow(m0.history)
    ensures Used(m0, m, 1) && (Calm(m0.script) && |m0.script| >= 1 ==> ok)
    ensures Steps(m.history) == Steps(m0.history) + [RemoveCalled(i, accepted)]
  {
    var reply := NextReply(m0);
    ok, accepted := Report(reply.fault) == Done, reply.accepted;
    HistoryGrows(n, m0.history, RemoveCalled(i, accepted));
    m := Machine(m0.ledger, m0.history + [RemoveCalled(i, accepted)], Rest(m0));
  }

  /** What the answer of a removal, and the inspection after it, dictate. */
  lemma RemovalDecides(n: nat, before: seq<Event>, called: seq<Event>, h: seq<Event>, i: nat, accepted: bool, seen: Observation)
    requires i < n && Steps(called) == Steps(before) + [RemoveCalled(i, accepted)]
    requires LedgerAfter(n, h)[i] == Started
    ensures !accepted ==> Verdict(n, called, i) == Some(Retained)
    ensures accepted && Steps(h) == Steps(called) + [Inspected(i, seen)] ==>
              Verdict(n, h, i) == Some(if seen == Absent then Removed else Retained)
  {
  }

  /** Start, remove and look again. */
  method RemoveItem(n: nat, m0: Machine, i: nat) returns (m: Machine, ok: bool, next: ItemState)
    requires Consistent(n, m0) && i < n && !IsTerminal(m0.ledger[i]) && Verdict(n, m0.history, i) == Some(Started)
    requires ReachedOnly(m0.history, i + 1)
    ensures Consistent(n, m) && Extends(m0, m) && (m.ledger == m0.ledger || m.ledger == m0.ledger[i := Started])
    ensures EligibleNow(m.history) == EligibleNow(m0.history)
    ensures ReachedOnly(m.history, i + 1)
    ensures Used(m0, m, 3) && (Calm(m0.script) && |m0.script| >= 3 ==> ok)
    ensures ok ==> IsTerminal(next) && Allowed(n, m.history, Recorded(i, next))
  {
    next := Retained;
    m, ok := Record(n, m0, i, Started);
    if ok {
      var accepted, seen := false, Absent;
      var m1 := m;
      m, ok, accepted := Remove(n, m, i);
      var m2 := m;
      if ok && accepted {
        m, ok, seen := Inspect(n, m, i);
        next := if seen == Absent then Removed else Retained;
      }
      RemovalDecides(n, m1.history, m2.history, m.history, i, accepted, seen);
    }
  }

  /** What an inspection dictates when no removal preceded it. */
  lemma InspectionDecides(n: nat, before: seq<Event>, h: seq<Event>, i: nat, seen: Observation)
    requires i < n && Steps(h) == Steps(before) + [Inspected(i, seen)] && ReachedOnly(before, i)
    ensures Verdict(n, h, i) == Some(
              if seen == Absent then (if LedgerAfter(n, h)[i] == Started then Removed else Retained)
              else if i !in EligibleNow(h) || seen == Different then Retained
              else Started)
  {
  }

  /** Inspect an unfinished item and act on what is seen. */
  method ConcludeItem(n: nat, m0: Machine, i: nat, eligible: set<nat>) returns (m: Machine, ok: bool, next: ItemState)
    requires Consistent(n, m0) && i < n && EligibleNow(m0.history) == eligible && !IsTerminal(m0.ledger[i])
    requires ReachedOnly(m0.history, i)
    ensures Consistent(n, m) && Extends(m0, m) && EligibleNow(m.history) == eligible
    ensures m.ledger == m0.ledger || m.ledger == m0.ledger[i := Started]
    ensures ReachedOnly(m.history, i + 1)
    ensures Used(m0, m, 4) && (Calm(m0.script) && |m0.script| >= 4 ==> ok)
    ensures ok ==> IsTerminal(next) && Allowed(n, m.history, Recorded(i, next))
  {
    var seen;
    next := Retained;
    m, ok, seen := Inspect(n, m0, i);
    if ok {
      InspectionDecides(n, m0.history, m.history, i, seen);
      if seen == Absent {
        next := if m0.ledger[i] == Started then Removed else Retained;
      } else if i !in eligible || seen == Different {
        next := Retained;
      } else {
        m, ok, next := RemoveItem(n, m, i);
      }
    }
  }

  /** One unfinished item: it ends terminal, in the state that the history dictates,
      unless the run is interrupted. */
  method ProcessItem(n: nat, m0: Machine, i: nat, eligible: set<nat>) returns (m: Machine, ok: bool)
    requires Consistent(n, m0) && i < n && EligibleNow(m0.history) == eligible && !IsTerminal(m0.ledger[i])
    requires ReachedOnly(m0.history, i)
    ensures Consistent(n, m) && Extends(m0, m) && EligibleNow(m.history) == eligible
    ensures forall j :: 0 <= j < n && j != i ==> m.ledger[j] == m0.ledger[j]
    ensures ok ==> IsTerminal(m.ledger[i])
    ensures ReachedOnly(m.history, i + 1)
    ensures Used(m0, m, STEPS_PER_ITEM) && (Calm(m0.script) && |m0.script| >= STEPS_PER_ITEM ==> ok)
  {
    var next;
    m, ok, next := ConcludeItem(n, m0, i, eligible);
    if ok {
      m, ok := Record(n, m, i, next);
    }
  }

  /** The last step was about an item before `i`, or began the run. */
  ghost predicate ReachedOnly(h: seq<Event>, i: nat) {
    && Steps(h) != []
    && (match Steps(h)[|Steps(h)| - 1]
        case RunBegan(_) => true
        case Inspected(j, _) => j < i
        case Recorded(_, _) => false
        case RemoveCalled(j, _) => j < i)
  }

  /** terminal_result: a response exactly when every item is terminal, with failures
      exactly when one was retained. */
  method TerminalResult(ledger: seq<ItemState>) returns (r: Option<ResultBody>)
    ensures r.Some? <==> forall i :: 0 <= i < |ledger| ==> IsTerminal(ledger[i])
    ensures r.Some? ==> r.value.items == ledger && (r.value.withFailures <==> exists i :: 0 <= i < |ledger| && ledger[i] == Retained)
  {
    var items, pending, retained := [], false, false;
    for i := 0 to |ledger|
      invariant items == ledger[..i]
      invariant pending <==> exists j :: 0 <= j < i && !IsTerminal(ledger[j])
      invariant retained <==> exists j :: 0 <= j < i && ledger[j] == Retained
    {
      pending := pending || !IsTerminal(ledger[i]);
      retained := retained || ledger[i] == Retained;
      items := items + [ledger[i]];
    }
    assert ledger[..|ledger|] == ledger;
    r := if pending then None else Some(ResultBody(retained, items));
  }

  /** execute_images: one run over the ledger, from its first item, whatever earlier runs
      left behind. A run that nothing disturbs ends with a response. */
  method ExecuteImages(n: nat, m0: Machine, eligible: set<nat>) returns (m: Machine, r: Option<ResultBody>)
    requires Consistent(n, m0)
    ensures Consistent(n, m) && Extends(m0, m)
    ensures r.Some? ==> r.value.items == m.ledger && forall i :: 0 <= i < n ==> IsTerminal(m.ledger[i])
    ensures r.Some? ==> (r.value.withFailures <==> exists i :: 0 <= i < n && m.ledger[i] == Retained)
    ensures Calm(m0.script) && |m0.script| >= STEPS_PER_ITEM * n ==> r.Some?
  {
    HistoryGrows(n, m0.history, RunBegan(eligible));
    m := m0.(history := m0.history + [RunBegan(eligible)]);
    r := None;
    var rows, ok, i := m.ledger, true, 0;
    while ok && i < n
      invariant i <= n && Consistent(n, m) && Extends(m0, m) && EligibleNow(m.history) == eligible
      invariant ok ==> forall j :: 0 <= j < i ==> IsTerminal(m.ledger[j])
      invariant ReachedOnly(m.history, i)
      invariant Calm(m0.script) && |m0.script| >= STEPS_PER_ITEM * n ==> ok && Calm(m.script) && |m.script| >= STEPS_PER_ITEM * (n - i)
      invariant forall j :: i <= j < n ==> m.ledger[j] == rows[j]
      decreases ok, n - i
    {
      if !IsTerminal(rows[i]) {
        m, ok := ProcessItem(n, m, i, eligible);
      }
      i := i + 1;
    }
    if ok {
      r := TerminalResult(m.ledger);
    }
  }

  ghost predicate AllTerminal(ledger: seq<ItemState>) {
    forall i :: 0 <= i < |ledger| ==> IsTerminal(ledger[i])
  }

  /** Any number of runs, each interrupted or not, over the same ledger. A run that nothing
      disturbs leaves every item terminal. */
  method ExecuteRuns(n: nat, runs: seq<(set<nat>, seq<Reply>)>) returns (history: seq<Event>, ledgers: seq<seq<ItemState>>)
    ensures HistoryOk(n, history) && |ledgers| == |runs| + 1
    ensures ledgers[|runs|] == LedgerAfter(n, history)
    ensures forall i, j :: 0 <= i <= j < |ledgers| ==> Keeps(ledgers[i], ledgers[j])
    ensures forall k :: 0 <= k < |runs| && Calm(runs[k].1) && |runs[k].1| >= STEPS_PER_ITEM * n ==> AllTerminal(ledgers[k + 1])
  {
    var m := Machine(seq(n, _ => Planned), [], []);
    ledgers := [m.ledger];
    for k := 0 to |runs|
      invariant Consistent(n, m) && |ledgers| == k + 1 && ledgers[k] == m.ledger
      invariant forall i, j :: 0 <= i <= j < |ledgers| ==> Keeps(ledgers[i], ledgers[j])
      invariant forall i :: 0 <= i < k && Calm(runs[i].1) && |runs[i].1| >= STEPS_PER_ITEM * n ==> AllTerminal(ledgers[i + 1])
    {
      var r;
      m, r := ExecuteImages(n, m.(script := runs[k].1), runs[k].0);
      ledgers := ledgers + [m.ledger];
    }
    history := m.history;
  }

  // ---------- What every history shows ----------

  lemma {:induction false} StartedWasRecorded(n: nat, h: seq<Event>, i: nat)
    requires i < n && LedgerAfter(n, h)[i] != Planned
    ensures exists k :: 0 <= k < |h| && h[k] == Recorded(i, LedgerAfter(n, h)[i])
  {
    if h != [] && h[|h| - 1] != Recorded(i, LedgerAfter(n, h)[i]) {
      StartedWasRecorded(n, h[..|h| - 1], i);
      var k :| 0 <= k < |h| - 1 && h[..|h| - 1][k] == Recorded(i, LedgerAfter(n, h[..|h| - 1])[i]);
      assert h[k] == Recorded(i, LedgerAfter(n, h)[i]);
    }
  }

  /** Nothing but ledger records happened between positions `t` and `k`. */
  ghost predicate OnlyRecords(h: seq<Event>, t: nat, k: nat)
    requires k <= |h|
  {
    forall j :: t < j < k ==> h[j].Recorded?
  }

  /** The last step before position `k` really happened, and only ledger records followed. */
  lemma {:induction false} LastStepBefore(h: seq<Event>, k: nat)
    requires k <= |h| && Steps(h[..k]) != []
    ensures exists s :: 0 <= s < k && h[s] == Steps(h[..k])[|Steps(h[..k])| - 1] && OnlyRecords(h, s, k)
  {
    assert h[..k][..k - 1] == h[..k - 1];
    if h[k - 1].Recorded? {
      LastStepBefore(h, k - 1);
      var s :| 0 <= s < k - 1 && h[s] == Steps(h[..k - 1])[|Steps(h[..k - 1])| - 1] && OnlyRecords(h, s, k - 1);
      assert OnlyRecords(h, s, k);
    } else {
      assert OnlyRecords(h, k - 1, k);
    }
  }

  lemma StartedBefore(n: nat, h: seq<Event>, k: nat, i: nat)
    requires k <= |h| && i < n && LedgerAfter(n, h[..k])[i] == Started
    ensures exists s :: 0 <= s < k && h[s] == Recorded(i, Started)
  {
    StartedWasRecorded(n, h[..k], i);
    var s :| 0 <= s < k && h[..k][s] == Recorded(i, Started);
    assert h[s] == Recorded(i, Started);
  }

  /** Write-ahead: every removal call was preceded by a durable start of that item and by
      an inspection that matched, with only ledger records in between. */
  lemma RemovalIsWrittenAhead(n: nat, h: seq<Event>, k: nat, i: nat, accepted: bool)
    requires HistoryOk(n, h) && k < |h| && h[k] == RemoveCalled(i, accepted)
    ensures i in EligibleNow(h[..k])
    ensures exists s :: 0 <= s < k && h[s] == Recorded(i, Started)
    ensures exists s :: 0 <= s < k && h[s] == Inspected(i, Matching) && OnlyRecords(h, s, k)
  {
    assert Allowed(n, h[..k], h[k]);
    StartedBefore(n, h, k, i);
    LastStepBefore(h, k);
  }

  /** Ledger records do not change the steps. */
  lemma {:induction false} RecordsAreNoSteps(h: seq<Event>, t: nat, k: nat)
    requires t < k <= |h| && !h[t].Recorded? && OnlyRecords(h, t, k)
    ensures Steps(h[..k]) == Steps(h[..t]) + [h[t]]
  {
    assert h[..k][..k - 1] == h[..k - 1];
    if k > t + 1 {
      assert OnlyRecords(h, t, k - 1);
      RecordsAreNoSteps(h, t, k - 1);
    }
  }

  /** After an image was seen to be absent, the only record that may follow is terminal:
      what is started then was started before. */
  lemma NoStartAfterAbsence(n: nat, h: seq<Event>, t: nat, k: nat, i: nat)
    requires HistoryOk(n, h) && t < k <= |h| && h[t] == Inspected(i, Absent) && OnlyRecords(h, t, k)
    requires i < n && LedgerAfter(n, h[..k])[i] == Started
    ensures LedgerAfter(n, h[..t])[i] == Started
  {
    assert h[..k][..k - 1] == h[..k - 1];
    if k > t + 1 {
      assert Allowed(n, h[..k - 1], h[k - 1]);
      RecordsAreNoSteps(h, t, k - 1);
      assert false;
    }
  }

  /** An item recorded as removed was started durably, then its image was seen to be absent,
      and nothing but ledger records followed before it was recorded: in this order. */
  lemma RemovedWasStartedAndAbsent(n: nat, h: seq<Event>, k: nat, i: nat)
    requires HistoryOk(n, h) && k < |h| && h[k] == Recorded(i, Removed)
    ensures exists s, t :: 0 <= s < t < k && h[s] == Recorded(i, Started) && h[t] == Inspected(i, Absent) && OnlyRecords(h, t, k)
  {
    assert Allowed(n, h[..k], h[k]);
    LastStepBefore(h, k);
    var t :| 0 <= t < k && h[t] == Inspected(i, Absent) && OnlyRecords(h, t, k);
    NoStartAfterAbsence(n, h, t, k, i);
    StartedBefore(n, h, t, i);
  }

  /** Once terminal, an item stays as it is for the rest of the history. */
  lemma {:induction false} TerminalIsFinal(n: nat, h: seq<Event>, k: nat, i: nat)
    requires HistoryOk(n, h) && k <= |h| && i < n && IsTerminal(LedgerAfter(n, h[..k])[i])
    ensures LedgerAfter(n, h)[i] == LedgerAfter(n, h[..k])[i]
  {
    if k == |h| {
      assert h[..k] == h;
    } else {
      var front := h[..|h| - 1];
      assert front[..k] == h[..k];
      assert HistoryOk(n, front) by {
        forall j | 0 <= j < |front|
          ensures Allowed(n, front[..j], front[j])
        {
          assert front[..j] == h[..j] && Allowed(n, h[..j], h[j]);
        }
      }
      TerminalIsFinal(n, front, k, i);
      assert Allowed(n, h[..|h| - 1], h[|h| - 1]);
    }
  }
}
