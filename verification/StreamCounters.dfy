/** Stream permits, their limits, and counter maps that count them exactly. */
module StreamCounters {
  import opened Artifacts

  type SessionId = nat
  type Token = nat

  datatype StreamKind = Events | Logs | Stats

  datatype Permit = Permit(session: SessionId, kind: StreamKind, app: Uuid, token: Token)

  const GLOBAL_LIMIT: nat := 24
  const SESSION_LIMIT: nat := 8

  function KindLimit(kind: StreamKind): nat {
    if kind == Events then 16 else 8
  }

  function AppLimit(kind: StreamKind): nat {
    if kind == Events then 4 else 2
  }

  // ---------- Counter maps ----------

  function Get<K>(m: map<K, nat>, k: K): nat {
    if k in m then m[k] else 0
  }

  function Increment<K>(m: map<K, nat>, k: K): map<K, nat> {
    m[k := Get(m, k) + 1]
  }

  function SaturatingSub(a: nat, b: nat): nat {
    if a < b then 0 else a - b
  }

  /** decrement: entries that reach zero are removed. */
  function Decrement<K>(m: map<K, nat>, k: K): map<K, nat> {
    if k !in m then m
    else if SaturatingSub(m[k], 1) == 0 then m - {k}
    else m[k := SaturatingSub(m[k], 1)]
  }

  /** The map counts exactly the elements of `keys`, without zero entries. */
  ghost predicate Counts<K(!new)>(m: map<K, nat>, keys: multiset<K>) {
    forall k :: (k in m <==> k in keys) && (k in m ==> m[k] == keys[k])
  }

  lemma IncrementCounts<K(!new)>(m: map<K, nat>, keys: multiset<K>, k: K)
    requires Counts(m, keys)
    ensures Counts(Increment(m, k), keys + multiset{k})
  {
  }

  /** Giving back what was counted never saturates. */
  lemma DecrementCounts<K(!new)>(m: map<K, nat>, keys: multiset<K>, k: K)
    requires Counts(m, keys) && k in keys
    ensures Counts(Decrement(m, k), keys - multiset{k})
    ensures k in m && m[k] >= 1
  {
  }

  ghost function Sum<K>(m: map<K, nat>): nat {
    if m == map[] then 0
    else
      var k :| k in m;
      m[k] + Sum(m - {k})
  }

  /** The entries of an exact counter add up to the number of things counted. */
  lemma {:induction false} CountsSum<K(!new)>(m: map<K, nat>, keys: multiset<K>)
    requires Counts(m, keys)
    ensures Sum(m) == |keys|
    decreases |m|
  {
    if m == map[] {
      assert keys == multiset{};
    } else {
      var k :| k in m && Sum(m) == m[k] + Sum(m - {k});
      CountsSum(m - {k}, keys[k := 0]);
    }
  }

  // ---------- Live permits ----------

  function SessionsOf(live: seq<Permit>): seq<SessionId> {
    seq(|live|, i requires 0 <= i < |live| => live[i].session)
  }

  function KindsOf(live: seq<Permit>): seq<StreamKind> {
    seq(|live|, i requires 0 <= i < |live| => live[i].kind)
  }

  function AppsOf(live: seq<Permit>): seq<(StreamKind, Uuid)> {
    seq(|live|, i requires 0 <= i < |live| => (live[i].kind, live[i].app))
  }

  function Without<T>(s: seq<T>, i: nat): seq<T>
    requires i < |s|
  {
    s[..i] + s[i + 1..]
  }

  lemma WithoutOne<T>(s: seq<T>, i: nat)
    requires i < |s|
    ensures multiset(Without(s, i)) == multiset(s) - multiset{s[i]} && s[i] in multiset(s)
  {
    assert s == s[..i] + [s[i]] + s[i + 1..];
    assert multiset(s) == multiset(s[..i]) + multiset{s[i]} + multiset(s[i + 1..]);
  }

  lemma ProjectionsGrow(live: seq<Permit>, p: Permit)
    ensures SessionsOf(live + [p]) == SessionsOf(live) + [p.session]
    ensures KindsOf(live + [p]) == KindsOf(live) + [p.kind]
    ensures AppsOf(live + [p]) == AppsOf(live) + [(p.kind, p.app)]
  {
  }

  lemma ProjectionsShrink(live: seq<Permit>, i: nat)
    requires i < |live|
    ensures multiset(SessionsOf(Without(live, i))) == multiset(SessionsOf(live)) - multiset{live[i].session}
    ensures multiset(KindsOf(Without(live, i))) == multiset(KindsOf(live)) - multiset{live[i].kind}
    ensures multiset(AppsOf(Without(live, i))) == multiset(AppsOf(live)) - multiset{(live[i].kind, live[i].app)}
    ensures live[i].session in multiset(SessionsOf(live)) && live[i].kind in multiset(KindsOf(live))
    ensures (live[i].kind, live[i].app) in multiset(AppsOf(live))
  {
    WithoutOne(SessionsOf(live), i);
    WithoutOne(KindsOf(live), i);
    WithoutOne(AppsOf(live), i);
    assert SessionsOf(Without(live, i)) == Without(SessionsOf(live), i);
    assert KindsOf(Without(live, i)) == Without(KindsOf(live), i);
    assert AppsOf(Without(live, i)) == Without(AppsOf(live), i);
  }

  /** An application has an entry in the counter exactly while it has a live permit. */
  lemma EntryIffPermit(live: seq<Permit>, kind: StreamKind, app: Uuid)
    ensures (kind, app) in multiset(AppsOf(live)) <==> exists i :: 0 <= i < |live| && live[i].kind == kind && live[i].app == app
  {
    if i :| 0 <= i < |live| && live[i].kind == kind && live[i].app == app {
      assert AppsOf(live)[i] == (kind, app);
    }
    if (kind, app) in AppsOf(live) {
      var i :| 0 <= i < |live| && AppsOf(live)[i] == (kind, app);
      assert live[i].kind == kind && live[i].app == app;
    }
  }
}
