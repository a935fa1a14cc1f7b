/** Every step of the cleanup protocol keeps the invariant: one lemma for each
    way the log or the ledger can change, then one for each concrete step. */
module CleanupSteps {
  import opened Artifacts
  import opened CleanupModel

  // ---------- Reading the invariant ----------

  lemma EntryHolds(w: World, e: Entry, op: OpId)
    requires Inv(w) && e in w.log && op in w.db
    ensures OpInv(op, w.db[op], TrashOf(e.fs, op), e.fs.canonical, w.born)
  {
    assert FsInv(w.db, e.fs, w.born);
  }

  lemma VisibleHolds(w: World, op: OpId)
    requires Inv(w) && op in w.db
    ensures OpInv(op, w.db[op], TrashOf(Visible(w), op), Visible(w).canonical, w.born)
  {
    EntryHolds(w, w.log[|w.log| - 1], op);
  }

  // ---------- The log ----------

  lemma {:induction false} LogShrinks(log: seq<Entry>)
    requires LogOk(log)
    ensures forall e :: e in log ==>
              log[|log| - 1].fs.canonical.Keys <= e.fs.canonical.Keys <= log[0].fs.canonical.Keys
  {
    if |log| > 1 {
      LogShrinks(log[..|log| - 1]);
    }
  }

  lemma {:induction false} FlushKeepsLog(log: seq<Entry>, d: Dir)
    requires LogOk(log)
    ensures LogOk(Flush(log, d))
    ensures Flush(log, d)[|Flush(log, d)| - 1] == log[|log| - 1]
    ensures forall e :: e in Flush(log, d) ==> e in log
  {
    var last := log[|log| - 1];
    if |log| > 1 && d !in last.dirs {
      var front := log[..|log| - 1];
      FlushKeepsLog(front, d);
      var out := Flush(front, d) + [last];
      assert out[..|out| - 1] == Flush(front, d);
    }
  }

  /** A sync makes durable what came before the last change of that directory, and no more:
      a power loss may still take away everything after it. */
  lemma {:induction false} FlushKeepsLater(log: seq<Entry>, d: Dir) returns (k: nat)
    requires |log| > 0
    ensures k < |log| && Flush(log, d) == log[k..]
    ensures k > 0 ==> d in log[k].dirs
    ensures forall j :: k < j < |log| ==> d !in log[j].dirs
  {
    k := |log| - 1;
    if |log| > 1 && d !in log[|log| - 1].dirs {
      var front := log[..|log| - 1];
      k := FlushKeepsLater(front, d);
      assert front[k..] + [log[|log| - 1]] == log[k..];
    }
  }

  /** After syncing an artifact's directory, every state a power loss can leave
      agrees with the visible one about that artifact. */
  lemma {:induction false} FlushAgreesOnArtifact(log: seq<Entry>, a: Artifact)
    requires LogOk(log)
    ensures forall e :: e in Flush(log, Parent(a)) ==>
              (a in e.fs.canonical <==> a in log[|log| - 1].fs.canonical)
  {
    var last := log[|log| - 1];
    if |log| > 1 && Parent(a) !in last.dirs {
      var front := log[..|log| - 1];
      FlushAgreesOnArtifact(front, a);
      assert EntryStep(front[|front| - 1].fs, last);
    }
  }

  /** The same for what the trash root holds for an operation. */
  lemma {:induction false} FlushAgreesOnRoot(log: seq<Entry>, op: OpId)
    requires LogOk(log)
    ensures forall e :: e in Flush(log, TrashRoot) ==>
              RootView(TrashOf(e.fs, op)) == RootView(TrashOf(log[|log| - 1].fs, op))
  {
    var last := log[|log| - 1];
    if |log| > 1 && TrashRoot !in last.dirs {
      var front := log[..|log| - 1];
      FlushAgreesOnRoot(front, op);
      assert EntryStep(front[|front| - 1].fs, last);
      assert StaysOutside(op, last.dirs, TrashOf(front[|front| - 1].fs, op), TrashOf(last.fs, op));
    }
  }

  /** The same for the operation's own directory. */
  lemma {:induction false} FlushAgreesOnDirectory(log: seq<Entry>, op: OpId)
    requires LogOk(log)
    ensures forall e :: e in Flush(log, OperationDir(op)) ==>
              DirectoryView(TrashOf(e.fs, op)) == DirectoryView(TrashOf(log[|log| - 1].fs, op))
  {
    var last := log[|log| - 1];
    if |log| > 1 && OperationDir(op) !in last.dirs {
      var front := log[..|log| - 1];
      FlushAgreesOnDirectory(front, op);
      assert EntryStep(front[|front| - 1].fs, last);
      assert StaysOutside(op, last.dirs, TrashOf(front[|front| - 1].fs, op), TrashOf(last.fs, op));
    }
  }

  /** The same for its payload directory. */
  lemma {:induction false} FlushAgreesOnPayload(log: seq<Entry>, op: OpId)
    requires LogOk(log)
    ensures forall e :: e in Flush(log, PayloadDir(op)) ==>
              PayloadKeys(TrashOf(e.fs, op)) == PayloadKeys(TrashOf(log[|log| - 1].fs, op))
  {
    var last := log[|log| - 1];
    if |log| > 1 && PayloadDir(op) !in last.dirs {
      var front := log[..|log| - 1];
      FlushAgreesOnPayload(front, op);
      assert EntryStep(front[|front| - 1].fs, last);
      assert StaysOutside(op, last.dirs, TrashOf(front[|front| - 1].fs, op), TrashOf(last.fs, op));
    }
  }

  lemma SyncKeepsInv(w: World, d: Dir)
    requires Inv(w)
    ensures Inv(Synced(w, d))
    ensures Visible(Synced(w, d)) == Visible(w)
    ensures Durable(Synced(w, d)).Keys <= Durable(w).Keys
  {
    FlushKeepsLog(w.log, d);
    LogShrinks(w.log);
    assert Flush(w.log, d)[0] in Flush(w.log, d);
  }

  lemma PowerLossKeepsInv(w: World, k: nat)
    requires Inv(w) && k < |w.log|
    ensures Inv(AfterPowerLoss(w, k))
  {
  }

  lemma AppendKeepsInv(w: World, dirs: set<Dir>, fs: Fs)
    requires Inv(w)
    requires FsInv(w.db, fs, w.born)
    requires EntryStep(Visible(w), Entry(dirs, fs))
    requires fs.canonical.Keys <= Visible(w).canonical.Keys
    ensures Inv(Append(w, dirs, fs))
    ensures Visible(Append(w, dirs, fs)) == fs
  {
  }

  // ---------- The ledger ----------

  lemma RowKeepsInv(w: World, op: OpId, o: Operation)
    requires Inv(w) && op in w.db
    requires forall e :: e in w.log ==> OpInv(op, o, TrashOf(e.fs, op), e.fs.canonical, w.born)
    requires forall a :: IsOpen(o, a) ==> IsOpen(w.db[op], a)
    requires w.db[op].retired ==> o.retired
    requires KeepsDetached(w.db[op], o)
    ensures Inv(WithRow(w, op, o))
  {
    var w' := WithRow(w, op, o);
    forall e | e in w'.log
      ensures FsInv(w'.db, e.fs, w'.born)
    {
      assert FsInv(w.db, e.fs, w.born);
      forall a | a in w.born
        ensures Accounted(w'.db, e.fs, a)
      {
        RowKeepsAccount(w.db, e.fs, a, op, o);
      }
    }
  }

  /** The same plan, and what is recorded as detached stays so. */
  ghost predicate KeepsDetached(o: Operation, o': Operation) {
    && o'.plan == o.plan && |o'.items| == |o.items|
    && (forall i :: 0 <= i < |o.items| && o.items[i] == Detached ==> o'.items[i] == Detached)
  }

  lemma RowKeepsAccount(db: map<OpId, Operation>, fs: Fs, a: Artifact, op: OpId, o: Operation)
    requires Accounted(db, fs, a) && op in db && KeepsDetached(db[op], o)
    ensures Accounted(db[op := o], fs, a)
  {
  }

  /** A detached or retained item never becomes open again. */
  lemma ItemChangeKeepsOpen(o: Operation, i: nat, s: ItemStatus)
    requires i < |o.plan| == |o.items| && o.items[i] == Planned
    ensures forall a :: IsOpen(o.(items := o.items[i := s]), a) ==> IsOpen(o, a)
  {
  }

  // ---------- Steps of the file system ----------

  /** What an operation once took it still holds, whatever stage its trash is in. */
  lemma StillTaken(op: OpId, o: Operation, t: Trash, t': Trash, canonical: map<Artifact, Inode>, born: map<Artifact, Inode>, a: Artifact)
    requires OpInv(op, o, t, canonical, born) && OpInv(op, o, t', canonical, born)
    requires Takes(o, t, a) && a !in canonical
    ensures Takes(o, t', a)
  {
    var i :| 0 <= i < |o.plan| && i < |o.items| && o.plan[i] == a && (o.items[i] == Detached || i in PayloadKeys(t));
    if o.items[i] != Detached {
      assert FullTombstone(o, t', canonical, born) ==> ItemOk(o, i, t'.dir.value.payload.value, canonical, born);
      assert ItemsOk(o, map[], canonical, born) ==> ItemOk(o, i, map[], canonical, born);
    }
  }

  lemma TrashKeepsAccount(db: map<OpId, Operation>, fs: Fs, born: map<Artifact, Inode>, a: Artifact, op: OpId, t: Trash)
    requires Accounted(db, fs, a) && op in db
    requires OpInv(op, db[op], TrashOf(fs, op), fs.canonical, born) && OpInv(op, db[op], t, fs.canonical, born)
    ensures Accounted(db, Fs(fs.canonical, fs.trash[op := t]), a)
  {
    var fs' := Fs(fs.canonical, fs.trash[op := t]);
    if a !in fs.canonical {
      var y :| y in db && Takes(db[y], TrashOf(fs, y), a);
      if y == op {
        StillTaken(op, db[op], TrashOf(fs, op), t, fs.canonical, born, a);
      }
      assert Takes(db[y], TrashOf(fs', y), a);
    }
  }

  /** Changing one operation's trash concerns no other operation. */
  lemma TrashStep(w: World, op: OpId, t: Trash, dirs: set<Dir>)
    requires Inv(w) && op in w.db
    requires OpInv(op, w.db[op], t, Visible(w).canonical, w.born)
    requires StaysOutside(op, dirs, TrashOf(Visible(w), op), t)
    ensures Inv(WithTrash(w, op, t, dirs))
    ensures Visible(WithTrash(w, op, t, dirs)) == Fs(Visible(w).canonical, Visible(w).trash[op := t])
  {
    var fs := Visible(w);
    var fs' := Fs(fs.canonical, fs.trash[op := t]);
    assert w.log[|w.log| - 1] in w.log;
    assert FsInv(w.db, fs, w.born);
    forall y | y in w.db
      ensures OpInv(y, w.db[y], TrashOf(fs', y), fs'.canonical, w.born)
    {
      assert y != op ==> TrashOf(fs', y) == TrashOf(fs, y);
    }
    forall y
      ensures StaysOutside(y, dirs, TrashOf(fs, y), TrashOf(fs', y))
    {
      assert y != op ==> TrashOf(fs', y) == TrashOf(fs, y);
    }
    forall a | a in w.born
      ensures Accounted(w.db, fs', a)
    {
      TrashKeepsAccount(w.db, fs, w.born, a, op, t);
    }
    AppendKeepsInv(w, dirs, fs');
  }

  /** ItemsOk depends only on where the planned artifacts are. */
  lemma ItemsOkFrame(o: Operation, payload: map<nat, Inode>,
                     canonical: map<Artifact, Inode>, born: map<Artifact, Inode>,
                     canonical': map<Artifact, Inode>, born': map<Artifact, Inode>)
    requires |o.plan| == |o.items| && ItemsOk(o, payload, canonical, born)
    requires forall i :: 0 <= i < |o.plan| ==> (o.plan[i] in canonical <==> o.plan[i] in canonical')
    requires forall a :: a in born ==> a in born' && born'[a] == born[a]
    ensures ItemsOk(o, payload, canonical', born')
  {
    forall i | 0 <= i < |o.plan|
      ensures ItemOk(o, i, payload, canonical', born')
    {
      assert ItemOk(o, i, payload, canonical, born);
    }
  }

  /** An operation's invariant depends only on where its own planned artifacts are. */
  lemma OpInvFrame(y: OpId, o: Operation, t: Trash,
                   canonical: map<Artifact, Inode>, born: map<Artifact, Inode>,
                   canonical': map<Artifact, Inode>, born': map<Artifact, Inode>)
    requires OpInv(y, o, t, canonical, born)
    requires forall i :: 0 <= i < |o.plan| && (o.retired ==> o.items[i] == Detached) ==>
               (o.plan[i] in canonical <==> o.plan[i] in canonical')
    requires forall a :: a in born ==> a in born' && born'[a] == born[a]
    ensures OpInv(y, o, t, canonical', born')
  {
    if FullTombstone(o, t, canonical, born) && !o.retired {
      ItemsOkFrame(o, t.dir.value.payload.value, canonical, born, canonical', born');
    } else if !Terminal(o.status) {
      ItemsOkFrame(o, map[], canonical, born, canonical', born');
    }
  }

  /** A planned artifact existed before. */
  lemma PlannedIsBorn(y: OpId, o: Operation, t: Trash, canonical: map<Artifact, Inode>, born: map<Artifact, Inode>, i: nat)
    requires OpInv(y, o, t, canonical, born) && i < |o.plan|
    ensures o.plan[i] in born
    ensures o.items[i] == Detached ==> o.plan[i] !in canonical
  {
    if !o.retired && !o.retiring {
      if FullTombstone(o, t, canonical, born) {
        assert ItemOk(o, i, t.dir.value.payload.value, canonical, born);
      } else {
        assert ItemOk(o, i, map[], canonical, born);
      }
    }
  }

  /** Taking away an artifact that an operation does not reserve keeps its invariant. */
  lemma OtherOperationUnaffected(y: OpId, o: Operation, t: Trash, canonical: map<Artifact, Inode>, born: map<Artifact, Inode>, a: Artifact)
    requires OpInv(y, o, t, canonical, born)
    requires o.retired || !IsOpen(o, a)
    ensures OpInv(y, o, t, canonical - {a}, born)
  {
    forall i | 0 <= i < |o.plan| && (o.retired ==> o.items[i] == Detached)
      ensures o.plan[i] in canonical <==> o.plan[i] in canonical - {a}
    {
      PlannedIsBorn(y, o, t, canonical, born, i);
    }
    OpInvFrame(y, o, t, canonical, born, canonical - {a}, born);
  }

  /** Moving the first unrecorded item into the payload keeps every other item in place. */
  lemma MoveOwnItem(op: OpId, o: Operation, t: Trash, canonical: map<Artifact, Inode>, born: map<Artifact, Inode>, i: nat)
    requires OpInv(op, o, t, canonical, born)
    requires i < |o.plan| && o.items[i] == Planned && Cleared(o, i)
    requires t.dir.Some? && t.dir.value.payload.Some?
    requires o.plan[i] in canonical && o.plan[i] in born && canonical[o.plan[i]] == born[o.plan[i]]
    ensures var payload := t.dir.value.payload.value;
            FullTombstone(o, t.(dir := Some(OpDir(t.dir.value.marker, Some(payload[i := canonical[o.plan[i]]])))), canonical - {o.plan[i]}, born)
  {
    assert FullTombstone(o, t, canonical, born);
    var payload := t.dir.value.payload.value;
    var payload' := payload[i := canonical[o.plan[i]]];
    forall j: nat | j < |o.plan|
      ensures ItemOk(o, j, payload', canonical - {o.plan[i]}, born)
    {
      assert ItemOk(o, j, payload, canonical, born);
      assert j != i ==> o.plan[j] != o.plan[i];
    }
  }

  ghost predicate CanMove(w: World, op: OpId, i: nat)
  {
    && |w.log| > 0 && op in w.db
    && i < |w.db[op].plan| == |w.db[op].items|
    && w.db[op].items[i] == Planned && Cleared(w.db[op], i)
    && TrashOf(Visible(w), op).dir.Some? && TrashOf(Visible(w), op).dir.value.payload.Some?
    && w.db[op].plan[i] in Visible(w).canonical
  }

  lemma MoveKeepsAccount(w: World, op: OpId, i: nat, b: Artifact)
    requires CanMove(w, op, i) && Accounted(w.db, Visible(w), b)
    ensures Accounted(w.db, Visible(Moved(w, op, i)), b)
  {
  }

  /** The detaching rename: it moves exactly one reserved artifact, so every
      operation keeps its own items in exactly one place. */
  lemma MoveKeepsInv(w: World, op: OpId, i: nat)
    requires Inv(w) && CanMove(w, op, i)
    ensures Inv(Moved(w, op, i))
  {
    var fs, a, o := Visible(w), w.db[op].plan[i], w.db[op];
    var w' := Moved(w, op, i);
    var fs' := Visible(w');
    assert w.log[|w.log| - 1] in w.log;
    assert FsInv(w.db, fs, w.born);
    MoveOwnItem(op, o, TrashOf(fs, op), fs.canonical, w.born, i);
    assert !Terminal(o.status) by { assert o.items[i] == Planned; }
    assert IsOpen(o, a);
    forall y | y in w.db
      ensures OpInv(y, w.db[y], TrashOf(fs', y), fs'.canonical, w.born)
    {
      if y != op {
        OtherOperationUnaffected(y, w.db[y], TrashOf(fs, y), fs.canonical, w.born, a);
        assert TrashOf(fs', y) == TrashOf(fs, y);
      }
    }
    forall y
      ensures StaysOutside(y, {Parent(a), PayloadDir(op)}, TrashOf(fs, y), TrashOf(fs', y))
    {
      assert y != op ==> TrashOf(fs', y) == TrashOf(fs, y);
    }
    forall b | b in w.born
      ensures Accounted(w.db, fs', b)
    {
      MoveKeepsAccount(w, op, i, b);
    }
    AppendKeepsInv(w, {Parent(a), PayloadDir(op)}, fs');
  }

  /** A fresh artifact disturbs no reservation, because every planned artifact existed before. */
  lemma CreateKeepsInv(w: World, a: Artifact, inode: Inode)
    requires Inv(w) && a !in w.born
    ensures Inv(Created(w, a, inode))
  {
    var fs, w' := Visible(w), Created(w, a, inode);
    var fs' := Visible(w');
    assert w.log[|w.log| - 1] in w.log;
    assert FsInv(w.db, fs, w.born);
    forall y | y in w.db
      ensures OpInv(y, w.db[y], TrashOf(fs', y), fs'.canonical, w'.born)
    {
      assert TrashOf(fs', y) == TrashOf(fs, y);
      forall i | 0 <= i < |w.db[y].plan|
        ensures w.db[y].plan[i] != a
      {
        PlannedIsBorn(y, w.db[y], TrashOf(fs, y), fs.canonical, w.born, i);
      }
      OpInvFrame(y, w.db[y], TrashOf(fs, y), fs.canonical, w.born, fs'.canonical, w'.born);
    }
    forall b | b in w'.born
      ensures Accounted(w'.db, fs', b)
    {
      if b != a {
        assert Accounted(w.db, fs, b);
        if y :| y in w.db && Takes(w.db[y], TrashOf(fs, y), b) {
          assert Takes(w'.db[y], TrashOf(fs', y), b);
        }
      }
    }
  }

  lemma PublishKeepsInv(w: World, op: OpId, plan: seq<Artifact>)
    requires Inv(w) && op !in w.db && Admissible(w, plan)
    ensures Inv(Published(w, op, plan))
  {
    var w' := Published(w, op, plan);
    var o := w'.db[op];
    forall e | e in w'.log
      ensures FsInv(w'.db, e.fs, w'.born)
    {
      assert FsInv(w.db, e.fs, w.born);
      assert TrashOf(e.fs, op) == EmptyTrash;
      LogShrinks(w.log);
      forall i | 0 <= i < |plan|
        ensures ItemOk(o, i, map[], e.fs.canonical, w.born)
      {
        assert plan[i] in Visible(w).canonical.Keys;
      }
      forall y | y in w'.db
        ensures OpInv(y, w'.db[y], TrashOf(e.fs, y), e.fs.canonical, w'.born)
      {
        if y != op {
          assert w'.db[y] == w.db[y];
        }
      }
      forall a | a in w.born
        ensures Accounted(w'.db, e.fs, a)
      {
        assert Accounted(w.db, e.fs, a);
        if y :| y in w.db && Takes(w.db[y], TrashOf(e.fs, y), a) {
          assert Takes(w'.db[y], TrashOf(e.fs, y), a);
        }
      }
    }
  }

  // ---------- Steps of the ledger ----------

  lemma RunningKeepsInv(w: World, op: OpId)
    requires Inv(w) && op in w.db && w.db[op].status == StPlanned
    requires forall e :: e in w.log ==> TrashOf(e.fs, op).dir.Some?
    ensures Inv(WithRow(w, op, w.db[op].(status := StRunning)))
  {
    var o := w.db[op];
    var o' := o.(status := StRunning);
    forall e | e in w.log
      ensures OpInv(op, o', TrashOf(e.fs, op), e.fs.canonical, w.born)
    {
      var t := TrashOf(e.fs, op);
      EntryHolds(w, e, op);
      SameItems(o, o', t.dir.value.payload.value, e.fs.canonical, w.born);
    }
    assert forall a :: IsOpen(o', a) ==> IsOpen(o, a);
    RowKeepsInv(w, op, o');
  }

  lemma SameItems(o: Operation, o': Operation, payload: map<nat, Inode>, canonical: map<Artifact, Inode>, born: map<Artifact, Inode>)
    requires |o.plan| == |o.items| && ItemsOk(o, payload, canonical, born)
    requires o'.plan == o.plan && o'.items == o.items
    ensures ItemsOk(o', payload, canonical, born)
  {
    forall i | 0 <= i < |o'.plan|
      ensures ItemOk(o', i, payload, canonical, born)
    {
      assert ItemOk(o, i, payload, canonical, born);
    }
  }

  /** Recording one item does not disturb the others: at most one item is moved
      and unrecorded, and it is the first unrecorded one. */
  lemma RecordOwnItem(o: Operation, payload: map<nat, Inode>, canonical: map<Artifact, Inode>, born: map<Artifact, Inode>, i: nat, s: ItemStatus)
    requires |o.plan| == |o.items| && ItemsOk(o, payload, canonical, born)
    requires i < |o.plan| && o.items[i] == Planned && s != Planned
    requires s == Detached <==> o.plan[i] !in canonical
    ensures ItemsOk(o.(items := o.items[i := s]), payload, canonical, born)
  {
    var o' := o.(items := o.items[i := s]);
    assert ItemOk(o, i, payload, canonical, born);
    forall j | 0 <= j < |o'.plan|
      ensures ItemOk(o', j, payload, canonical, born)
    {
      assert ItemOk(o, j, payload, canonical, born);
      if j != i && o.items[j] == Planned && j in payload {
        assert Cleared(o, j);
        assert j < i;
      }
    }
  }

  lemma RecordKeepsInv(w: World, op: OpId, i: nat, s: ItemStatus)
    requires Inv(w) && op in w.db && w.db[op].status == StRunning
    requires i < |w.db[op].plan| == |w.db[op].items| && w.db[op].items[i] == Planned && s != Planned
    requires forall e :: e in w.log ==> (s == Detached <==> w.db[op].plan[i] !in e.fs.canonical)
    ensures Inv(WithRow(w, op, w.db[op].(items := w.db[op].items[i := s])))
  {
    var o := w.db[op];
    var o' := o.(items := o.items[i := s]);
    forall e | e in w.log
      ensures OpInv(op, o', TrashOf(e.fs, op), e.fs.canonical, w.born)
    {
      var t := TrashOf(e.fs, op);
      EntryHolds(w, e, op);
      RecordOwnItem(o, t.dir.value.payload.value, e.fs.canonical, w.born, i, s);
    }
    ItemChangeKeepsOpen(o, i, s);
    RowKeepsInv(w, op, o');
  }

  /** An artifact that is still visible is still in place in every state a power loss can leave. */
  lemma VisibleIsEverywhere(w: World, a: Artifact)
    requires Inv(w) && a in Visible(w).canonical
    ensures forall e :: e in w.log ==> a in e.fs.canonical
  {
    forall e | e in w.log
      ensures a in e.fs.canonical
    {
      LogShrinks(w.log);
      assert a in Visible(w).canonical.Keys;
    }
  }

  lemma CompletionKeepsInv(w: World, op: OpId)
    requires Inv(w) && op in w.db && w.db[op].status == StRunning && AllTerminal(w.db[op].items)
    ensures Inv(WithRow(w, op, w.db[op].(status := FinalStatus(w.db[op].items))))
  {
    var o := w.db[op];
    var o' := o.(status := FinalStatus(o.items));
    forall e | e in w.log
      ensures OpInv(op, o', TrashOf(e.fs, op), e.fs.canonical, w.born)
    {
      var t := TrashOf(e.fs, op);
      EntryHolds(w, e, op);
      SameItems(o, o', t.dir.value.payload.value, e.fs.canonical, w.born);
    }
    assert forall a :: IsOpen(o', a) ==> IsOpen(o, a);
    RowKeepsInv(w, op, o');
  }

  lemma ProofKeepsInv(w: World, op: OpId)
    requires Inv(w) && op in w.db && Terminal(w.db[op].status) && w.db[op].proof.Recoverable?
    requires |w.db[op].plan| == |w.db[op].items| && AllTerminal(w.db[op].items)
    ensures Inv(WithRow(w, op, w.db[op].(proof := Succeeded(ExpectedBody(op, w.db[op])))))
  {
    var o := w.db[op];
    var o' := o.(proof := Succeeded(ExpectedBody(op, o)));
    forall e | e in w.log
      ensures OpInv(op, o', TrashOf(e.fs, op), e.fs.canonical, w.born)
    {
      var t := TrashOf(e.fs, op);
      EntryHolds(w, e, op);
      SameItems(o, o', t.dir.value.payload.value, e.fs.canonical, w.born);
    }
    assert forall a :: IsOpen(o', a) ==> IsOpen(o, a);
    RowKeepsInv(w, op, o');
  }

  lemma RetirementIntentOwn(op: OpId, o: Operation, t: Trash, canonical: map<Artifact, Inode>, born: map<Artifact, Inode>)
    requires OpInv(op, o, t, canonical, born) && Terminal(o.status) && o.proof.Succeeded? && !o.retired
    ensures OpInv(op, o.(retiring := true), t, canonical, born)
  {
    if !o.retiring {
      var payload := t.dir.value.payload.value;
      forall i | 0 <= i < |o.plan|
        ensures o.plan[i] in born
        ensures o.items[i].Detached? ==> o.plan[i] !in canonical
        ensures o.items[i].Failed? ==> o.plan[i] in canonical
      {
        assert ItemOk(o, i, payload, canonical, born);
      }
    }
  }

  lemma RetirementIntentKeepsInv(w: World, op: OpId)
    requires Inv(w) && op in w.db && Terminal(w.db[op].status) && w.db[op].proof.Succeeded? && !w.db[op].retired
    ensures Inv(WithRow(w, op, w.db[op].(retiring := true)))
  {
    var o := w.db[op];
    var o' := o.(retiring := true);
    forall e | e in w.log
      ensures OpInv(op, o', TrashOf(e.fs, op), e.fs.canonical, w.born)
    {
      EntryHolds(w, e, op);
      RetirementIntentOwn(op, o, TrashOf(e.fs, op), e.fs.canonical, w.born);
    }
    assert forall a :: IsOpen(o', a) ==> IsOpen(o, a);
    RowKeepsInv(w, op, o');
  }

  /** Clearing the retirement intent needs an empty trash in every state a power loss can leave. */
  lemma RetirementClearedKeepsInv(w: World, op: OpId)
    requires Inv(w) && op in w.db && w.db[op].retiring
    requires forall e :: e in w.log ==> TrashOf(e.fs, op) == EmptyTrash
    ensures Inv(WithRow(w, op, w.db[op].(retiring := false, retired := true)))
  {
    var o := w.db[op];
    var o' := o.(retiring := false, retired := true);
    forall e | e in w.log
      ensures OpInv(op, o', TrashOf(e.fs, op), e.fs.canonical, w.born)
    {
      EntryHolds(w, e, op);
    }
    assert forall a :: IsOpen(o', a) ==> IsOpen(o, a);
    RowKeepsInv(w, op, o');
  }
}
