/** The counted state of the stream gate, what holds of it in every history, and why every
    step keeps it. */
module StreamState {
  import opened Artifacts
  import opened StreamCounters

  // ---------- The counted state behind the mutex ----------

  /** `cancelled` holds the tokens that a deletion cancelled, `nextToken` the next unused
      one, and `shutdown` says whether the process-wide token, the parent of all
      application tokens, was cancelled. */
  datatype GateCounts = GateCounts(
    total: nat,
    sessions: map<SessionId, nat>,
    kinds: map<StreamKind, nat>,
    apps: map<(StreamKind, Uuid), nat>,
    cancellations: map<Uuid, Token>,
    blocked: set<Uuid>,
    producers: map<Uuid, nat>,
    cancelled: set<Token>,
    nextToken: Token,
    shutdown: bool)

  /** What is outstanding: permits, producers, barriers that were neither dropped nor
      committed, and the applications that a barrier has seen quiet and that were not
      reopened since. */
  datatype Outstanding = Outstanding(live: seq<Permit>, running: multiset<Uuid>, barriers: multiset<Uuid>, quiet: set<Uuid>)

  predicate IsCancelled(c: GateCounts, t: Token) {
    c.shutdown || t in c.cancelled
  }

  /** Conservation: every counter equals what is outstanding. */
  ghost predicate Conserved(c: GateCounts, out: Outstanding) {
    && c.total == |out.live|
    && Counts(c.sessions, multiset(SessionsOf(out.live)))
    && Counts(c.kinds, multiset(KindsOf(out.live)))
    && Counts(c.apps, multiset(AppsOf(out.live)))
    && Counts(c.producers, out.running)
  }

  ghost predicate WithinLimits(c: GateCounts) {
    && c.total <= GLOBAL_LIMIT
    && (forall s :: Get(c.sessions, s) <= SESSION_LIMIT)
    && (forall k :: Get(c.kinds, k) <= KindLimit(k))
    && (forall k :: Get(c.apps, k) <= AppLimit(k.0))
  }

  /** An application's token is cancelled exactly if the application is closed or the
      process shuts down. */
  ghost predicate TokensOk(c: GateCounts) {
    && (forall a :: a in c.cancellations ==> (IsCancelled(c, c.cancellations[a]) <==> a in c.blocked || c.shutdown))
    && (forall a :: a in c.cancellations ==> c.cancellations[a] < c.nextToken)
    && (forall t :: t in c.cancelled ==> t < c.nextToken)
    && (forall a, b :: a in c.cancellations && b in c.cancellations && a != b ==> c.cancellations[a] != c.cancellations[b])
  }

  /** A live permit was cancelled, or its application's current token still reaches it. */
  ghost predicate Reached(c: GateCounts, p: Permit) {
    IsCancelled(c, p.token) || (p.app in c.cancellations && c.cancellations[p.app] == p.token)
  }

  ghost predicate AllReached(c: GateCounts, live: seq<Permit>) {
    forall i :: 0 <= i < |live| ==> Reached(c, live[i])
  }

  ghost predicate HasPermit(live: seq<Permit>, app: Uuid) {
    exists i :: 0 <= i < |live| && live[i].app == app
  }

  /** A quiet application is closed and has neither permits nor producers. */
  ghost predicate Quiescent(c: GateCounts, out: Outstanding) {
    forall a :: a in out.quiet ==> a in c.blocked && a !in out.running && !HasPermit(out.live, a)
  }

  /** What holds in every history. */
  ghost predicate GateOk(c: GateCounts, out: Outstanding) {
    Conserved(c, out) && WithinLimits(c) && TokensOk(c) && Quiescent(c, out)
  }

  /** Every outstanding barrier holds its application closed. */
  ghost predicate AllHeld(c: GateCounts, out: Outstanding) {
    forall a :: a in out.barriers ==> a in c.blocked
  }

  /** The application is open and no limit is reached. */
  predicate Admits(c: GateCounts, session: SessionId, kind: StreamKind, app: Uuid) {
    && app !in c.blocked && c.total < GLOBAL_LIMIT
    && Get(c.sessions, session) < SESSION_LIMIT
    && Get(c.kinds, kind) < KindLimit(kind)
    && Get(c.apps, (kind, app)) < AppLimit(kind)
  }

  /** How many of the live permits are of a session, of a kind, or of a kind and application. */
  ghost function OfSession(live: seq<Permit>, session: SessionId): nat {
    if live == [] then 0 else OfSession(live[..|live| - 1], session) + if live[|live| - 1].session == session then 1 else 0
  }

  ghost function OfKind(live: seq<Permit>, kind: StreamKind): nat {
    if live == [] then 0 else OfKind(live[..|live| - 1], kind) + if live[|live| - 1].kind == kind then 1 else 0
  }

  ghost function OfApp(live: seq<Permit>, kind: StreamKind, app: Uuid): nat {
    if live == [] then 0 else OfApp(live[..|live| - 1], kind, app) + if live[|live| - 1].kind == kind && live[|live| - 1].app == app then 1 else 0
  }

  /** Another stream fits: fewer than 24 in all, fewer than 8 of the session, and fewer than
      16 and 4 event streams, or 8 and 2 log or statistics streams, in all and of the
      application. */
  ghost predicate HasRoom(live: seq<Permit>, session: SessionId, kind: StreamKind, app: Uuid) {
    && |live| < 24 && OfSession(live, session) < 8
    && OfKind(live, kind) < (if kind.Events? then 16 else 8)
    && OfApp(live, kind, app) < (if kind.Events? then 4 else 2)
  }

  lemma {:induction false} CountsAreCounts(live: seq<Permit>, session: SessionId, kind: StreamKind, app: Uuid)
    ensures multiset(SessionsOf(live))[session] == OfSession(live, session)
    ensures multiset(KindsOf(live))[kind] == OfKind(live, kind)
    ensures multiset(AppsOf(live))[(kind, app)] == OfApp(live, kind, app)
  {
    if live != [] {
      var t, p := live[..|live| - 1], live[|live| - 1];
      CountsAreCounts(t, session, kind, app);
      ProjectionsGrow(t, p);
      assert t + [p] == live;
    }
  }

  lemma CountedBy<K(!new)>(m: map<K, nat>, keys: multiset<K>, k: K)
    requires Counts(m, keys)
    ensures Get(m, k) == keys[k]
  {
  }

  /** The counters say that a stream fits exactly if the live permits leave room. */
  lemma AdmitsIffRoom(c: GateCounts, out: Outstanding, session: SessionId, kind: StreamKind, app: Uuid)
    requires Conserved(c, out)
    ensures Admits(c, session, kind, app) <==> app !in c.blocked && HasRoom(out.live, session, kind, app)
  {
    CountsAreCounts(out.live, session, kind, app);
    CountedBy(c.sessions, multiset(SessionsOf(out.live)), session);
    CountedBy(c.kinds, multiset(KindsOf(out.live)), kind);
    CountedBy(c.apps, multiset(AppsOf(out.live)), (kind, app));
  }

  /** The application's token, created if it has none. */
  function WithToken(c: GateCounts, app: Uuid): GateCounts {
    if app in c.cancellations then c
    else c.(cancellations := c.cancellations[app := c.nextToken], nextToken := c.nextToken + 1)
  }

  function Taken(c: GateCounts, session: SessionId, kind: StreamKind, app: Uuid): GateCounts {
    c.(total := c.total + 1,
       sessions := Increment(c.sessions, session),
       kinds := Increment(c.kinds, kind),
       apps := Increment(c.apps, (kind, app)))
  }

  function GivenBack(c: GateCounts, p: Permit): GateCounts {
    c.(total := SaturatingSub(c.total, 1),
       sessions := Decrement(c.sessions, p.session),
       kinds := Decrement(c.kinds, p.kind),
       apps := Decrement(c.apps, (p.kind, p.app)))
  }

  function Closed(c: GateCounts, app: Uuid): GateCounts {
    c.(blocked := c.blocked + {app},
       cancelled := if app in c.cancellations then c.cancelled + {c.cancellations[app]} else c.cancelled)
  }

  function Reopened(c: GateCounts, app: Uuid): GateCounts {
    c.(blocked := c.blocked - {app}, cancellations := c.cancellations - {app})
  }

  // ---------- Every step keeps the invariant ----------

  /** The token of an open application is cancelled exactly if the process shuts down. */
  lemma TokenKeepsGate(c: GateCounts, out: Outstanding, app: Uuid)
    requires GateOk(c, out) && app !in c.blocked
    ensures GateOk(WithToken(c, app), out)
    ensures IsCancelled(WithToken(c, app), WithToken(c, app).cancellations[app]) <==> c.shutdown
    ensures AllReached(c, out.live) ==> AllReached(WithToken(c, app), out.live)
  {
    TokensAfterCreation(c, app);
    if AllReached(c, out.live) {
      TokenKeepsReach(c, out.live, app);
    }
    TokenKeepsRest(c, out, app);
  }

  lemma TokenKeepsReach(c: GateCounts, live: seq<Permit>, app: Uuid)
    requires AllReached(c, live)
    ensures AllReached(WithToken(c, app), live)
  {
    forall i | 0 <= i < |live|
      ensures Reached(WithToken(c, app), live[i])
    {
      assert Reached(c, live[i]);
    }
  }

  lemma TokenKeepsRest(c: GateCounts, out: Outstanding, app: Uuid)
    requires Conserved(c, out) && WithinLimits(c) && Quiescent(c, out)
    ensures Conserved(WithToken(c, app), out) && WithinLimits(WithToken(c, app)) && Quiescent(WithToken(c, app), out)
  {
  }

  lemma TokensAfterCreation(c: GateCounts, app: Uuid)
    requires TokensOk(c) && app !in c.blocked
    ensures TokensOk(WithToken(c, app))
    ensures IsCancelled(WithToken(c, app), WithToken(c, app).cancellations[app]) <==> c.shutdown
  {
    if app !in c.cancellations {
      var c' := WithToken(c, app);
      assert forall a :: a in c.cancellations ==> c.cancellations[a] != c.nextToken;
      assert c.nextToken !in c.cancelled;
      assert c'.cancellations == c.cancellations[app := c.nextToken];
    }
  }

  lemma GrantConserves(c: GateCounts, out: Outstanding, p: Permit)
    requires Conserved(c, out)
    ensures Conserved(Taken(c, p.session, p.kind, p.app), out.(live := out.live + [p]))
  {
    ProjectionsGrow(out.live, p);
    IncrementCounts(c.sessions, multiset(SessionsOf(out.live)), p.session);
    IncrementCounts(c.kinds, multiset(KindsOf(out.live)), p.kind);
    IncrementCounts(c.apps, multiset(AppsOf(out.live)), (p.kind, p.app));
  }

  lemma LimitsAfterGrant(c: GateCounts, session: SessionId, kind: StreamKind, app: Uuid)
    requires WithinLimits(c) && Admits(c, session, kind, app)
    ensures WithinLimits(Taken(c, session, kind, app))
  {
    forall s
      ensures Get(Increment(c.sessions, session), s) <= SESSION_LIMIT
    {
      assert Get(c.sessions, s) <= SESSION_LIMIT;
    }
    forall k
      ensures Get(Increment(c.kinds, kind), k) <= KindLimit(k)
    {
      assert Get(c.kinds, k) <= KindLimit(k);
    }
    forall k: (StreamKind, Uuid)
      ensures Get(Increment(c.apps, (kind, app)), k) <= AppLimit(k.0)
    {
      assert Get(c.apps, k) <= AppLimit(k.0);
    }
  }

  lemma GrantKeepsGate(c: GateCounts, out: Outstanding, p: Permit)
    requires GateOk(c, out) && Admits(c, p.session, p.kind, p.app)
    requires p.app in c.cancellations && c.cancellations[p.app] == p.token
    ensures GateOk(Taken(c, p.session, p.kind, p.app), out.(live := out.live + [p]))
    ensures AllReached(c, out.live) ==> AllReached(Taken(c, p.session, p.kind, p.app), out.live + [p])
  {
    var c', live' := Taken(c, p.session, p.kind, p.app), out.live + [p];
    GrantConserves(c, out, p);
    LimitsAfterGrant(c, p.session, p.kind, p.app);
    if AllReached(c, out.live) {
      GrantIsReached(c, out.live, p);
    }
    assert Quiescent(c', out.(live := live')) by {
      forall a
        ensures HasPermit(live', a) <==> HasPermit(out.live, a) || p.app == a
      {
        OneMorePermit(out.live, p, a);
      }
    }
  }

  lemma GrantIsReached(c: GateCounts, live: seq<Permit>, p: Permit)
    requires AllReached(c, live) && p.app in c.cancellations && c.cancellations[p.app] == p.token
    ensures AllReached(Taken(c, p.session, p.kind, p.app), live + [p])
  {
    var c', live' := Taken(c, p.session, p.kind, p.app), live + [p];
    forall i | 0 <= i < |live'|
      ensures Reached(c', live'[i])
    {
      assert i < |live| ==> live'[i] == live[i] && Reached(c, live[i]);
    }
  }

  lemma OneMorePermit(live: seq<Permit>, p: Permit, app: Uuid)
    ensures HasPermit(live + [p], app) <==> HasPermit(live, app) || p.app == app
  {
    if i :| 0 <= i < |live| && live[i].app == app {
      assert (live + [p])[i].app == app;
    }
    assert (live + [p])[|live|] == p;
  }

  lemma GiveBackConserves(c: GateCounts, out: Outstanding, i: nat)
    requires Conserved(c, out) && i < |out.live|
    ensures Conserved(GivenBack(c, out.live[i]), out.(live := Without(out.live, i)))
  {
    var p := out.live[i];
    ProjectionsShrink(out.live, i);
    DecrementCounts(c.sessions, multiset(SessionsOf(out.live)), p.session);
    DecrementCounts(c.kinds, multiset(KindsOf(out.live)), p.kind);
    DecrementCounts(c.apps, multiset(AppsOf(out.live)), (p.kind, p.app));
  }

  lemma FewerPermits(live: seq<Permit>, i: nat, j: nat)
    requires i < |live| && j < |Without(live, i)|
    ensures Without(live, i)[j] == live[if j < i then j else j + 1]
  {
  }

  lemma GiveBackKeepsGate(c: GateCounts, out: Outstanding, i: nat)
    requires GateOk(c, out) && i < |out.live|
    ensures GateOk(GivenBack(c, out.live[i]), out.(live := Without(out.live, i)))
    ensures AllReached(c, out.live) ==> AllReached(GivenBack(c, out.live[i]), Without(out.live, i))
  {
    var c', live' := GivenBack(c, out.live[i]), Without(out.live, i);
    GiveBackConserves(c, out, i);
    LimitsAfterGivingBack(c, out.live[i]);
    forall j | 0 <= j < |live'|
      ensures HasPermit(out.live, live'[j].app) && (AllReached(c, out.live) ==> Reached(c', live'[j]))
    {
      FewerPermits(out.live, i, j);
      assert AllReached(c, out.live) ==> Reached(c, out.live[if j < i then j else j + 1]);
    }
  }

  lemma LimitsAfterGivingBack(c: GateCounts, p: Permit)
    requires WithinLimits(c)
    ensures WithinLimits(GivenBack(c, p))
  {
    forall s
      ensures Get(Decrement(c.sessions, p.session), s) <= SESSION_LIMIT
    {
      assert Get(c.sessions, s) <= SESSION_LIMIT;
    }
    forall k
      ensures Get(Decrement(c.kinds, p.kind), k) <= KindLimit(k)
    {
      assert Get(c.kinds, k) <= KindLimit(k);
    }
    forall k: (StreamKind, Uuid)
      ensures Get(Decrement(c.apps, (p.kind, p.app)), k) <= AppLimit(k.0)
    {
      assert Get(c.apps, k) <= AppLimit(k.0);
    }
  }

  ghost predicate AllCancelled(c: GateCounts, live: seq<Permit>, app: Uuid) {
    forall i :: 0 <= i < |live| && live[i].app == app ==> IsCancelled(c, live[i].token)
  }

  /** Closing an application cancels every stream it has, as far as they are within reach. */
  lemma CloseKeepsGate(c: GateCounts, out: Outstanding, app: Uuid)
    requires GateOk(c, out)
    ensures GateOk(Closed(c, app), out.(barriers := out.barriers + multiset{app}))
    ensures AllReached(c, out.live) ==> AllReached(Closed(c, app), out.live) && AllCancelled(Closed(c, app), out.live, app)
  {
    var c' := Closed(c, app);
    if AllReached(c, out.live) {
      forall i | 0 <= i < |out.live|
        ensures Reached(c', out.live[i]) && (out.live[i].app == app ==> IsCancelled(c', out.live[i].token))
      {
        assert Reached(c, out.live[i]);
      }
    }
  }

  /** Exactly when dropping a barrier keeps every live stream within reach of the next
      deletion: if and only if all streams of the application were already cancelled. A
      closed application satisfies this; one that another barrier reopened need not. */
  lemma ReopenIff(c: GateCounts, out: Outstanding, app: Uuid)
    requires GateOk(c, out) && AllReached(c, out.live)
    ensures AllReached(Reopened(c, app), out.live) <==> AllCancelled(c, out.live, app)
    ensures app in c.blocked ==> AllCancelled(c, out.live, app)
  {
    var c' := Reopened(c, app);
    forall i | 0 <= i < |out.live|
      ensures Reached(c', out.live[i]) <==> (out.live[i].app == app ==> IsCancelled(c, out.live[i].token))
      ensures app in c.blocked && out.live[i].app == app ==> IsCancelled(c, out.live[i].token)
    {
      assert Reached(c, out.live[i]);
    }
  }

  lemma ReopenKeepsGate(c: GateCounts, out: Outstanding, app: Uuid)
    requires GateOk(c, out)
    ensures GateOk(Reopened(c, app), out.(barriers := out.barriers - multiset{app}, quiet := out.quiet - {app}))
  {
  }

  /** Exactly when the other barriers still hold their applications closed. */
  lemma ReopenHeldIff(c: GateCounts, out: Outstanding, app: Uuid)
    requires AllHeld(c, out) && app in out.barriers
    ensures AllHeld(Reopened(c, app), out.(barriers := out.barriers - multiset{app}, quiet := out.quiet - {app})) <==>
            out.barriers[app] == 1
  {
    var barriers' := out.barriers - multiset{app};
    assert app in barriers' <==> out.barriers[app] > 1;
    assert forall a :: a != app ==> (a in barriers' <==> a in out.barriers);
  }

  /** What a second barrier spoils: wherever an open application has a live stream, dropping
      one more barrier puts the stream out of reach, and the next deletion misses it. */
  lemma SecondDropLosesStream(c: GateCounts, out: Outstanding, app: Uuid, i: nat)
    requires GateOk(c, out) && app !in c.blocked && i < |out.live| && out.live[i].app == app && !IsCancelled(c, out.live[i].token)
    ensures !Reached(Reopened(c, app), out.live[i])
    ensures !IsCancelled(Closed(Reopened(c, app), app), out.live[i].token)
  {
  }

  /** The process shuts down: every token is cancelled with its parent. */
  lemma ShutdownKeepsGate(c: GateCounts, out: Outstanding)
    requires GateOk(c, out)
    ensures GateOk(c.(shutdown := true), out) && AllReached(c.(shutdown := true), out.live)
  {
  }

  lemma SameReach(c: GateCounts, c': GateCounts, live: seq<Permit>)
    requires AllReached(c, live)
    requires c'.shutdown == c.shutdown && c'.cancelled == c.cancelled && c'.cancellations == c.cancellations
    ensures AllReached(c', live)
  {
    forall i | 0 <= i < |live|
      ensures Reached(c', live[i])
    {
      assert Reached(c, live[i]);
    }
  }

  /** A producer can only appear under a live permit, so never for a quiet application. */
  lemma ProducerKeepsGate(c: GateCounts, out: Outstanding, app: Uuid)
    requires GateOk(c, out) && HasPermit(out.live, app)
    ensures GateOk(c.(producers := Increment(c.producers, app)), out.(running := out.running + multiset{app}))
  {
    IncrementCounts(c.producers, out.running, app);
  }

  lemma ProducerDropKeepsGate(c: GateCounts, out: Outstanding, app: Uuid)
    requires GateOk(c, out) && app in out.running
    ensures GateOk(c.(producers := Decrement(c.producers, app)), out.(running := out.running - multiset{app}))
  {
    DecrementCounts(c.producers, out.running, app);
  }

  predicate IsActive(c: GateCounts, app: Uuid) {
    (exists k :: k in c.apps && k.1 == app) || Get(c.producers, app) > 0
  }

  /** What the barrier looks at tells exactly whether the application is quiet. */
  lemma ActiveIffInUse(c: GateCounts, out: Outstanding, app: Uuid)
    requires Conserved(c, out)
    ensures IsActive(c, app) <==> app in out.running || HasPermit(out.live, app)
  {
    if k :| k in c.apps && k.1 == app {
      EntryIffPermit(out.live, k.0, app);
    }
    if i :| 0 <= i < |out.live| && out.live[i].app == app {
      EntryIffPermit(out.live, out.live[i].kind, app);
      assert (out.live[i].kind, app) in c.apps;
    }
  }

  /** All counters agree with the number of live permits. */
  lemma TotalsAgree(c: GateCounts, out: Outstanding)
    requires GateOk(c, out)
    ensures Sum(c.sessions) == Sum(c.kinds) == Sum(c.apps) == c.total == |out.live|
    ensures |out.live| <= 24
  {
    CountsSum(c.sessions, multiset(SessionsOf(out.live)));
    CountsSum(c.kinds, multiset(KindsOf(out.live)));
    CountsSum(c.apps, multiset(AppsOf(out.live)));
  }

  /** No limit is ever exceeded. */
  lemma LimitsHold(c: GateCounts, out: Outstanding, session: SessionId, kind: StreamKind, app: Uuid)
    requires Conserved(c, out) && WithinLimits(c)
    ensures |out.live| <= 24 && OfSession(out.live, session) <= 8
    ensures OfKind(out.live, kind) <= (if kind.Events? then 16 else 8)
    ensures OfApp(out.live, kind, app) <= (if kind.Events? then 4 else 2)
  {
    CountsAreCounts(out.live, session, kind, app);
    CountedBy(c.sessions, multiset(SessionsOf(out.live)), session);
    CountedBy(c.kinds, multiset(KindsOf(out.live)), kind);
    CountedBy(c.apps, multiset(AppsOf(out.live)), (kind, app));
  }

  lemma EmptyGateHasRoom(session: SessionId, kind: StreamKind, app: Uuid)
    ensures HasRoom([], session, kind, app)
  {
  }
}
