/** The retention rule: keep the active release and the first distinct successes,
    up to a number of versions. */
module Retention {
  import opened Artifacts

  /** What the loop has kept after seeing all of `s`. */
  function Retain(start: set<Uuid>, keep: nat, s: seq<Uuid>): (r: set<Uuid>)
    ensures start <= r
  {
    if s == [] then start
    else
      var r := Retain(start, keep, s[..|s| - 1]);
      if |r| >= keep then r else r + {s[|s| - 1]}
  }

  function AsSet(x: Option<Uuid>): set<Uuid> {
    if x.Some? then {x.value} else {}
  }

  /** retained_releases: the loop stops at the first success after the limit is reached. */
  method RetainedReleases(active: Option<Uuid>, keep: nat, successes: seq<Uuid>) returns (retained: set<Uuid>)
    ensures retained == Retain(AsSet(active), keep, successes)
  {
    retained := AsSet(active);
    for i := 0 to |successes|
      invariant retained == Retain(AsSet(active), keep, successes[..i])
    {
      if |retained| >= keep {
        FullStaysFull(AsSet(active), keep, successes, i);
        return;
      }
      retained := retained + {successes[i]};
      assert successes[..i + 1][..i] == successes[..i];
    }
    assert successes[..|successes|] == successes;
  }

  lemma {:induction false} FullStaysFull(start: set<Uuid>, keep: nat, s: seq<Uuid>, i: nat)
    requires i <= |s| && |Retain(start, keep, s[..i])| >= keep
    ensures Retain(start, keep, s) == Retain(start, keep, s[..i])
  {
    if i == |s| {
      assert s[..i] == s;
    } else {
      assert s[..|s| - 1][..i] == s[..i];
      FullStaysFull(start, keep, s[..|s| - 1], i);
    }
  }

  /** The elements of `s` outside `seen`, each at its first occurrence. */
  function FirstOccurrences(s: seq<Uuid>, seen: set<Uuid>): seq<Uuid> {
    if s == [] then []
    else
      var f := FirstOccurrences(s[..|s| - 1], seen);
      var x := s[|s| - 1];
      if x in seen || x in f then f else f + [x]
  }

  function Room(start: set<Uuid>, keep: nat): nat {
    if |start| < keep then keep - |start| else 0
  }

  function Elements(s: seq<Uuid>): set<Uuid> {
    set x | x in s
  }

  lemma {:induction false} OccurrencesAreDistinct(s: seq<Uuid>, seen: set<Uuid>)
    ensures NoDuplicates(FirstOccurrences(s, seen))
    ensures forall x :: x in FirstOccurrences(s, seen) <==> x in s && x !in seen
  {
    if s != [] {
      OccurrencesAreDistinct(s[..|s| - 1], seen);
      assert s == s[..|s| - 1] + [s[|s| - 1]];
    }
  }

  lemma {:induction false} DistinctSize(s: seq<Uuid>)
    requires NoDuplicates(s)
    ensures |Elements(s)| == |s|
  {
    if s != [] {
      var t := s[..|s| - 1];
      DistinctSize(t);
      assert Elements(s) == Elements(t) + {s[|s| - 1]};
    }
  }

  /** What `n` distinct new elements add to the kept set. */
  lemma PrefixSize(s: seq<Uuid>, seen: set<Uuid>, n: nat)
    requires n <= |FirstOccurrences(s, seen)|
    ensures |seen + Elements(FirstOccurrences(s, seen)[..n])| == |seen| + n
  {
    var f := FirstOccurrences(s, seen);
    OccurrencesAreDistinct(s, seen);
    DistinctSize(f[..n]);
    assert seen !! Elements(f[..n]);
  }

  /** The exact characterisation: the start, plus the first distinct others that fit. */
  lemma {:induction false} RetainIsFirstDistinct(start: set<Uuid>, keep: nat, s: seq<Uuid>)
    ensures var f := FirstOccurrences(s, start);
            var n := if |f| < Room(start, keep) then |f| else Room(start, keep);
            && Retain(start, keep, s) == start + Elements(f[..n])
            && |Retain(start, keep, s)| == |start| + n
  {
    var f := FirstOccurrences(s, start);
    var n := if |f| < Room(start, keep) then |f| else Room(start, keep);
    PrefixSize(s, start, n);
    if s != [] {
      var t, x := s[..|s| - 1], s[|s| - 1];
      var g := FirstOccurrences(t, start);
      RetainIsFirstDistinct(start, keep, t);
      var r := Retain(start, keep, t);
      if |r| >= keep {
        assert f[..n] == g[..n];
      } else if x in start || x in g {
        assert g[..|g|] == g;
        assert x in r;
      } else {
        assert n == |f| && f[..n] == g[..|g|] + [x];
      }
    }
  }

  /** Keeping more versions never gives one up. */
  lemma {:induction false} RetainMonotone(start: set<Uuid>, keep: nat, keep': nat, s: seq<Uuid>)
    requires keep <= keep'
    ensures Retain(start, keep, s) <= Retain(start, keep', s)
  {
    RetainIsFirstDistinct(start, keep, s);
    RetainIsFirstDistinct(start, keep', s);
  }

  function Surviving(s: seq<Uuid>, alive: set<Uuid>): seq<Uuid> {
    if s == [] then []
    else Surviving(s[..|s| - 1], alive) + (if s[|s| - 1] in alive then [s[|s| - 1]] else [])
  }

  /** Forgetting successes that were not kept changes nothing. */
  lemma {:induction false} RetainSurvives(start: set<Uuid>, keep: nat, s: seq<Uuid>, alive: set<Uuid>)
    requires Retain(start, keep, s) <= alive + start
    ensures Retain(start, keep, Surviving(s, alive)) == Retain(start, keep, s)
  {
    if s != [] {
      var t, x := s[..|s| - 1], s[|s| - 1];
      RetainSurvives(start, keep, t, alive);
      if x in alive {
        assert Surviving(s, alive)[..|Surviving(s, alive)| - 1] == Surviving(t, alive);
      } else {
        assert Surviving(s, alive) == Surviving(t, alive);
        assert x in start ==> Retain(start, keep, t) + {x} == Retain(start, keep, t);
      }
    }
  }
}
