/** The gate in front of live streams: counted permits with limits, producers, and
    deletion barriers that close an application. Every method runs under the gate's
    mutex, so a concurrent history is a sequence of calls. */
module StreamGate {
  import opened Artifacts
  import opened StreamCounters
  import opened StreamState

  class Gate {
    var counts: GateCounts
    ghost var out: Outstanding

    ghost predicate Valid()
      reads this
    {
      GateOk(counts, out)
    }

    /** Every live stream was cancelled or can be, by the next deletion. */
    ghost predicate InReach()
      reads this
    {
      AllReached(counts, out.live)
    }

    /** Every outstanding barrier holds its application closed. */
    ghost predicate Held()
      reads this
    {
      AllHeld(counts, out)
    }

    constructor ()
      ensures Valid() && InReach() && Held() && !counts.shutdown && counts.blocked == {}
      ensures out == Outstanding([], multiset{}, multiset{}, {})
    {
      counts := GateCounts(0, map[], map[], map[], map[], {}, map[], {}, 0, false);
      out := Outstanding([], multiset{}, multiset{}, {});
    }

    /** acquire_for grants exactly when the application is open and no limit is reached. It
        does not look at the shutdown token: what it grants is already cancelled exactly if
        the process shuts down. */
    method Acquire(session: SessionId, kind: StreamKind, app: Uuid) returns (r: Option<Permit>)
      requires Valid()
      modifies this
      ensures Valid() && (old(InReach()) ==> InReach()) && (old(Held()) ==> Held())
      ensures r.Some? <==> old(app !in counts.blocked && HasRoom(out.live, session, kind, app))
      ensures r.None? ==> counts == old(counts) && out == old(out)
      ensures r.Some? ==> r.value == Permit(session, kind, app, r.value.token)
      ensures r.Some? ==> (IsCancelled(counts, r.value.token) <==> counts.shutdown)
      ensures r.Some? ==> out == old(out.(live := out.live + [r.value]))
      ensures r.Some? ==> counts == Taken(WithToken(old(counts), app), session, kind, app)
    {
      AdmitsIffRoom(counts, out, session, kind, app);
      if !Admits(counts, session, kind, app) {
        r := None;
      } else {
        TokenKeepsGate(counts, out, app);
        counts := WithToken(counts, app);
        var p := Permit(session, kind, app, counts.cancellations[app]);
        GrantKeepsGate(counts, out, p);
        counts := Taken(counts, session, kind, app);
        out := out.(live := out.live + [p]);
        r := Some(p);
      }
    }

    /** Dropping a permit gives back exactly what it took: nothing saturates. Its position
        among the live permits tells it from equal ones. */
    method DropPermit(p: Permit, i: nat)
      requires Valid() && i < |out.live| && out.live[i] == p
      modifies this
      ensures Valid() && (old(InReach()) ==> InReach()) && (old(Held()) ==> Held())
      ensures out == old(out.(live := Without(out.live, i))) && counts.total + 1 == old(counts.total)
      ensures counts == GivenBack(old(counts), p)
    {
      GiveBackKeepsGate(counts, out, i);
      counts := GivenBack(counts, p);
      out := out.(live := Without(out.live, i));
    }

    /** begin_app_deletion closes the application and cancels every stream within reach. */
    method BeginDeletion(app: Uuid)
      requires Valid()
      modifies this
      ensures Valid() && (old(Held()) ==> Held())
      ensures counts == Closed(old(counts), app) && app in counts.blocked
      ensures out == old(out.(barriers := out.barriers + multiset{app}))
      ensures old(InReach()) ==> InReach() && AllCancelled(counts, out.live, app)
    {
      CloseKeepsGate(counts, out, app);
      counts := Closed(counts, app);
      out := out.(barriers := out.barriers + multiset{app});
    }

    /** One look of `wait`: true exactly when the application has no permit and no
        producer. If the application is closed, it is quiet from then on, until a barrier of
        it is dropped. */
    method Look(app: Uuid) returns (isQuiet: bool)
      requires Valid() && app in out.barriers
      modifies this`out
      ensures Valid() && (old(InReach()) ==> InReach()) && (old(Held()) ==> Held())
      ensures isQuiet <==> app !in out.running && !HasPermit(out.live, app)
      ensures out == if isQuiet && app in counts.blocked then old(out.(quiet := out.quiet + {app})) else old(out)
    {
      ActiveIffInUse(counts, out, app);
      isQuiet := !IsActive(counts, app);
      if isQuiet && app in counts.blocked {
        out := out.(quiet := out.quiet + {app});
      }
    }

    /** An uncommitted barrier reopens the application with a new cancellation generation,
        even if it is not the only barrier. Every other barrier still holds, and every stream
        stays within reach, exactly if it was the only one of its application. */
    method DropBarrier(app: Uuid)
      requires Valid() && app in out.barriers
      modifies this
      ensures Valid()
      ensures counts == Reopened(old(counts), app) && app !in counts.blocked
      ensures out == old(out.(barriers := out.barriers - multiset{app}, quiet := out.quiet - {app}))
      ensures old(Held()) ==> (Held() <==> old(out.barriers[app]) == 1)
      ensures old(InReach()) ==> (InReach() <==> old(AllCancelled(counts, out.live, app)))
      ensures old(Held() && InReach()) ==> InReach()
    {
      ReopenKeepsGate(counts, out, app);
      if AllReached(counts, out.live) {
        ReopenIff(counts, out, app);
      }
      if AllHeld(counts, out) {
        ReopenHeldIff(counts, out, app);
      }
      counts := Reopened(counts, app);
      out := out.(barriers := out.barriers - multiset{app}, quiet := out.quiet - {app});
    }

    /** A committed barrier leaves the application as it is, closed for good. */
    method Commit(app: Uuid)
      requires Valid() && app in out.barriers
      modifies this`out
      ensures Valid() && (old(InReach()) ==> InReach()) && (old(Held()) ==> Held())
      ensures out == old(out.(barriers := out.barriers - multiset{app}))
    {
      out := out.(barriers := out.barriers - multiset{app});
    }

    /** The log stream registers its producer while it holds its permit. */
    method RegisterProducer(app: Uuid)
      requires Valid() && HasPermit(out.live, app)
      modifies this
      ensures Valid() && (old(InReach()) ==> InReach()) && (old(Held()) ==> Held())
      ensures out == old(out.(running := out.running + multiset{app}))
      ensures counts == old(counts.(producers := Increment(counts.producers, app)))
    {
      ProducerKeepsGate(counts, out, app);
      ghost var before := counts;
      counts := counts.(producers := Increment(counts.producers, app));
      if AllReached(before, out.live) {
        SameReach(before, counts, out.live);
      }
      out := out.(running := out.running + multiset{app});
    }

    method DropProducer(app: Uuid)
      requires Valid() && app in out.running
      modifies this
      ensures Valid() && (old(InReach()) ==> InReach()) && (old(Held()) ==> Held())
      ensures out == old(out.(running := out.running - multiset{app}))
      ensures counts == old(counts.(producers := Decrement(counts.producers, app)))
    {
      ProducerDropKeepsGate(counts, out, app);
      ghost var before := counts;
      counts := counts.(producers := Decrement(counts.producers, app));
      if AllReached(before, out.live) {
        SameReach(before, counts, out.live);
      }
      out := out.(running := out.running - multiset{app});
    }

    /** The process begins to shut down: every stream is cancelled at once. */
    method Shutdown()
      requires Valid()
      modifies this
      ensures Valid() && InReach() && (old(Held()) ==> Held())
      ensures counts == old(counts).(shutdown := true) && out == old(out)
    {
      ShutdownKeepsGate(counts, out);
      counts := counts.(shutdown := true);
    }
  }

  // ---------- What the gate does not promise ----------

  /** A request that is still in flight during shutdown gets a stream that is cancelled from
      the start. */
  method GrantDuringShutdown(app: Uuid) returns (gate: Gate, granted: Option<Permit>)
    ensures fresh(gate) && gate.Valid() && granted.Some? && app !in gate.counts.blocked
    ensures IsCancelled(gate.counts, granted.value.token)
  {
    gate := new Gate();
    gate.Shutdown();
    EmptyGateHasRoom(0, Logs, app);
    granted := gate.Acquire(0, Logs, app);
  }

  /** Two barriers for the same application, the first one dropped. */
  method DropFirstOfTwo(app: Uuid) returns (gate: Gate)
    ensures fresh(gate) && gate.Valid() && !gate.counts.shutdown && app !in gate.counts.blocked
    ensures gate.out.live == [] && gate.out.barriers[app] == 1
  {
    gate := new Gate();
    gate.BeginDeletion(app);
    gate.BeginDeletion(app);
    gate.DropBarrier(app);
  }

  /** With two barriers, dropping the first reopens the application: a stream is granted
      while the second barrier is outstanding, and it no longer holds. */
  method TwoBarriersReopen(app: Uuid) returns (gate: Gate, granted: Option<Permit>)
    ensures fresh(gate) && gate.Valid() && granted.Some? && granted.value.app == app
    ensures gate.out.live == [granted.value] && !IsCancelled(gate.counts, granted.value.token)
    ensures gate.out.barriers[app] == 1 && app !in gate.counts.blocked && !gate.Held()
  {
    gate := DropFirstOfTwo(app);
    EmptyGateHasRoom(0, Logs, app);
    granted := gate.Acquire(0, Logs, app);
  }

  /** Dropping the second barrier then puts that stream out of reach: a third deletion waits
      for a stream that it does not cancel. */
  method TwoBarriersLoseStream(app: Uuid) returns (gate: Gate, granted: Option<Permit>)
    ensures fresh(gate) && gate.Valid() && granted.Some?
    ensures app in gate.out.barriers && app in gate.counts.blocked && HasPermit(gate.out.live, app)
    ensures !AllCancelled(gate.counts, gate.out.live, app)
  {
    gate, granted := TwoBarriersReopen(app);
    SecondDropLosesStream(gate.counts, gate.out, app, 0);
    gate.DropBarrier(app);
    gate.BeginDeletion(app);
    assert gate.out.live[0] == granted.value;
  }
}
