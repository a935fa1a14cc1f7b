/** Measuring an artifact: the traversal with an explicit stack and the recursive one
    accept the same trees and agree on the size. */
module FileTree {
  import opened Artifacts

  const U64_MAX: nat := 0xFFFF_FFFF_FFFF_FFFF

  type u64 = x: nat | x <= U64_MAX

  /** A directory entry. `isPrivate` says that its permissions pass the check; anything
      that is neither a file nor a directory is illegal. */
  datatype Node =
    | File(size: u64, isPrivate: bool)
    | Directory(children: seq<Node>, isPrivate: bool)
    | Other

  datatype MeasureError = SymlinkBoundary | Permission | TooLarge

  predicate Legal(n: Node) {
    match n
    case File(_, isPrivate) => isPrivate
    case Directory(children, isPrivate) => isPrivate && forall i :: 0 <= i < |children| ==> Legal(children[i])
    case Other => false
  }

  /** The true size, without any bound. */
  function Size(n: Node): nat {
    match n
    case File(size, _) => size
    case Directory(children, _) => SizeOfAll(children)
    case Other => 0
  }

  function SizeOfAll(s: seq<Node>): nat {
    if s == [] then 0 else Size(s[0]) + SizeOfAll(s[1..])
  }

  /** The number of entries: what a traversal has left to visit. */
  function Entries(n: Node): nat {
    1 + if n.Directory? then EntriesOfAll(n.children) else 0
  }

  function EntriesOfAll(s: seq<Node>): nat {
    if s == [] then 0 else Entries(s[0]) + EntriesOfAll(s[1..])
  }

  ghost predicate AllLegal(s: seq<Node>) {
    forall i :: 0 <= i < |s| ==> Legal(s[i])
  }

  /** Checked addition on 64 bits. */
  function CheckedAdd(a: u64, b: u64): Option<u64> {
    if a + b <= U64_MAX then Some(a + b) else None
  }

  lemma {:induction false} SizeConcat(a: seq<Node>, b: seq<Node>)
    ensures SizeOfAll(a + b) == SizeOfAll(a) + SizeOfAll(b)
    ensures EntriesOfAll(a + b) == EntriesOfAll(a) + EntriesOfAll(b)
  {
    if a == [] {
      assert a + b == b;
    } else {
      assert (a + b)[1..] == a[1..] + b;
      SizeConcat(a[1..], b);
    }
  }

  lemma PopFacts(s: seq<Node>)
    requires s != []
    ensures SizeOfAll(s) == SizeOfAll(s[..|s| - 1]) + Size(s[|s| - 1])
    ensures EntriesOfAll(s) == EntriesOfAll(s[..|s| - 1]) + Entries(s[|s| - 1])
    ensures AllLegal(s) <==> AllLegal(s[..|s| - 1]) && Legal(s[|s| - 1])
  {
    var n := |s| - 1;
    assert s == s[..n] + [s[n]];
    SizeConcat(s[..n], [s[n]]);
    assert [s[n]][1..] == [];
  }

  /** logical_bytes: the recursive measure succeeds exactly on legal trees whose true size
      fits in 64 bits, and then returns that size. */
  method LogicalBytes(n: Node) returns (r: Result<u64, MeasureError>)
    ensures r.Ok? <==> Legal(n) && Size(n) < 0x1_0000_0000_0000_0000
    ensures r.Ok? ==> r.value == Size(n)
    decreases n
  {
    match n
    case Other => r := Err(SymlinkBoundary);
    case File(size, isPrivate) => r := if isPrivate then Ok(size) else Err(Permission);
    case Directory(children, isPrivate) =>
      if !isPrivate {
        return Err(Permission);
      }
      var total: u64 := 0;
      for i := 0 to |children|
        invariant total == SizeOfAll(children[..i])
        invariant forall j :: 0 <= j < i ==> Legal(children[j])
      {
        var child := LogicalBytes(children[i]);
        TakeOne(children, i);
        if child.Err? {
          LargerThanPart(children, i);
          return Err(child.error);
        }
        var sum := CheckedAdd(total, child.value);
        if sum.None? {
          LargerThanPrefix(children, i + 1);
          return Err(TooLarge);
        }
        total := sum.value;
      }
      assert children[..|children|] == children;
      r := Ok(total);
  }

  lemma TakeOne(s: seq<Node>, i: nat)
    requires i < |s|
    ensures SizeOfAll(s[..i + 1]) == SizeOfAll(s[..i]) + Size(s[i])
  {
    PopFacts(s[..i + 1]);
    assert s[..i + 1][..i] == s[..i];
  }

  lemma LargerThanPrefix(s: seq<Node>, i: nat)
    requires i <= |s|
    ensures SizeOfAll(s[..i]) <= SizeOfAll(s)
  {
    assert s == s[..i] + s[i..];
    SizeConcat(s[..i], s[i..]);
  }

  lemma LargerThanPart(s: seq<Node>, i: nat)
    requires i < |s|
    ensures Size(s[i]) <= SizeOfAll(s)
  {
    TakeOne(s, i);
    LargerThanPrefix(s, i + 1);
  }

  /** logical_artifact_bytes for a release: the explicit stack. It visits every entry once
      and has the same contract as the recursive measure. */
  method LogicalArtifactBytes(root: Node) returns (r: Result<u64, MeasureError>)
    ensures r.Ok? <==> Legal(root) && Size(root) < 0x1_0000_0000_0000_0000
    ensures r.Ok? ==> r.value == Size(root)
  {
    var pending := [root];
    var total: u64 := 0;
    assert [root][1..] == [];
    while pending != []
      invariant Legal(root) <==> AllLegal(pending)
      invariant Legal(root) ==> total + SizeOfAll(pending) == Size(root)
      decreases EntriesOfAll(pending)
    {
      var n := pending[|pending| - 1];
      PopFacts(pending);
      pending := pending[..|pending| - 1];
      match n
      case Other => return Err(SymlinkBoundary);
      case Directory(children, isPrivate) =>
        if !isPrivate {
          return Err(Permission);
        }
        SizeConcat(pending, children);
        AppendLegal(pending, children);
        pending := pending + children;
      case File(size, isPrivate) =>
        if !isPrivate {
          return Err(Permission);
        }
        var sum := CheckedAdd(total, size);
        if sum.None? {
          return Err(TooLarge);
        }
        total := sum.value;
    }
    r := Ok(total);
  }

  lemma AppendLegal(a: seq<Node>, b: seq<Node>)
    ensures AllLegal(a + b) <==> AllLegal(a) && AllLegal(b)
  {
    if AllLegal(a + b) {
      assert forall i :: 0 <= i < |a| ==> a[i] == (a + b)[i];
      assert forall i :: 0 <= i < |b| ==> b[i] == (a + b)[|a| + i];
    }
  }

  /** The two measures accept the same trees with the same total. */
  method MeasureBothWays(root: Node) returns (stack: Result<u64, MeasureError>, recursive: Result<u64, MeasureError>)
    ensures stack.Ok? <==> recursive.Ok?
    ensures stack.Ok? ==> stack.value == recursive.value
  {
    stack := LogicalArtifactBytes(root);
    recursive := LogicalBytes(root);
  }
}
