/** The durable state of artifact cleanup, and the invariant that ties the ledger
    to the file system.

    The file system is a log of states. The first entry is what a power loss is
    guaranteed to keep, the last entry is what the process sees, and a power loss
    may stop at any entry: directory operations reach the disk in order. Each
    entry names the directories its operation changed, and syncing a directory
    makes durable everything up to the last operation that changed it. */
module CleanupModel {
  import opened Artifacts

  type OpId = Uuid
  type Inode = nat

  /** The reasons an item may be recorded as failed. */
  datatype FailureCode = ItemRetained | ReleaseRetained | ItemProtected

  datatype ItemStatus = Planned | Detached | Failed(code: FailureCode)

  datatype OpStatus = StPlanned | StRunning | StCompleted | StCompletedWithFailures

  /** The public identity of an item: temporary names are replaced by their position. */
  datatype PublicId = Id(id: Uuid) | TemporaryNumber(n: nat)

  datatype PublicItem =
    | Deleted(app: Option<Uuid>, id: PublicId)
    | Retained(app: Option<Uuid>, id: PublicId, code: FailureCode)

  /** The terminal response of an operation. The plan stands for its hash. */
  datatype Body = Body(op: OpId, plan: seq<Artifact>, status: OpStatus, items: seq<PublicItem>)

  /** The idempotency record or policy authorization of an operation: still
      resumable, or finished with a recorded response. */
  datatype Proof = Recoverable | Succeeded(body: Body)

  /** A ledger row. `retired` is history, not a column: it is set when
      `retiring` (the column retirement_pending) is cleared, and no step reads it. */
  datatype Operation = Operation(
    plan: seq<Artifact>,
    status: OpStatus,
    items: seq<ItemStatus>,
    retiring: bool,
    proof: Proof,
    retired: bool)

  datatype OpDir = OpDir(marker: Option<seq<Artifact>>, payload: Option<map<nat, Inode>>)

  /** What the trash directory holds for one operation: an unfinished preparation,
      the operation's own directory, and the marker moved out of it at retirement. */
  datatype Trash = Trash(preparing: bool, dir: Option<OpDir>, retired: Option<seq<Artifact>>)

  const EmptyTrash := Trash(false, None, None)

  datatype Fs = Fs(canonical: map<Artifact, Inode>, trash: map<OpId, Trash>)

  datatype Dir =
    | StoreDir(owner: Option<Uuid>, location: TempLocation)
    | PayloadDir(op: OpId)
    | OperationDir(op: OpId)
    | TrashRoot

  datatype Entry = Entry(dirs: set<Dir>, fs: Fs)

  /** `born` is history: the inode each artifact had when it was created. */
  datatype World = World(db: map<OpId, Operation>, log: seq<Entry>, born: map<Artifact, Inode>)

  // ---------- Views ----------

  function Parent(a: Artifact): Dir {
    match a
    case Release(app, _, _) => StoreDir(Some(app), Releases)
    case ConfigRevision(app, _) => StoreDir(Some(app), ConfigRevisions)
    case Temporary(owner, location, _) => StoreDir(owner, location)
  }

  /** Two artifacts share a directory exactly if they have the same owner and kind; a
      temporary file may lie among releases or revisions. */
  lemma SharedDirectory(a: Artifact, b: Artifact)
    ensures a.Release? && b.Release? ==> (Parent(a) == Parent(b) <==> a.app == b.app)
    ensures a.ConfigRevision? && b.ConfigRevision? ==> (Parent(a) == Parent(b) <==> a.app == b.app)
    ensures a.Release? && b.ConfigRevision? ==> Parent(a) != Parent(b)
    ensures a.Temporary? && b.Temporary? ==> (Parent(a) == Parent(b) <==> a.owner == b.owner && a.location == b.location)
    ensures a.Temporary? && b.Release? ==> (Parent(a) == Parent(b) <==> a.owner == Some(b.app) && a.location == Releases)
    ensures a.Temporary? && b.ConfigRevision? ==> (Parent(a) == Parent(b) <==> a.owner == Some(b.app) && a.location == ConfigRevisions)
  {
  }

  function TrashOf(fs: Fs, op: OpId): Trash {
    if op in fs.trash then fs.trash[op] else EmptyTrash
  }

  function Visible(w: World): Fs
    requires |w.log| > 0
  {
    w.log[|w.log| - 1].fs
  }

  /** The artifacts that even the most forgetful power loss leaves in the store. */
  function Durable(w: World): map<Artifact, Inode>
    requires |w.log| > 0
  {
    w.log[0].fs.canonical
  }

  /** The part of an operation's trash that lives in the trash root directory. */
  function RootView(t: Trash): (bool, bool, Option<seq<Artifact>>) {
    (t.preparing, t.dir.Some?, t.retired)
  }

  /** The part that lives in the operation's own directory. */
  function DirectoryView(t: Trash): (Option<seq<Artifact>>, bool) {
    if t.dir.Some? then (t.dir.value.marker, t.dir.value.payload.Some?) else (None, false)
  }

  function PayloadKeys(t: Trash): set<nat> {
    if t.dir.Some? && t.dir.value.payload.Some? then t.dir.value.payload.value.Keys else {}
  }

  predicate Terminal(s: OpStatus) {
    s == StCompleted || s == StCompletedWithFailures
  }

  predicate AllTerminal(items: seq<ItemStatus>) {
    forall i :: 0 <= i < |items| ==> items[i] != Planned
  }

  predicate HasFailure(items: seq<ItemStatus>) {
    exists i :: 0 <= i < |items| && items[i].Failed?
  }

  function FinalStatus(items: seq<ItemStatus>): OpStatus {
    if HasFailure(items) then StCompletedWithFailures else StCompleted
  }

  function ArtifactApp(a: Artifact): Option<Uuid> {
    match a
    case Release(app, _, _) => Some(app)
    case ConfigRevision(app, _) => Some(app)
    case Temporary(owner, _, _) => owner
  }

  function PublicIdOf(a: Artifact, ordinal: nat): PublicId {
    match a
    case Release(_, id, _) => Id(id)
    case ConfigRevision(_, id) => Id(id)
    case Temporary(_, _, _) => TemporaryNumber(ordinal + 1)
  }

  function PublicItemOf(a: Artifact, ordinal: nat, s: ItemStatus): PublicItem
    requires s != Planned
  {
    if s.Detached?
    then Deleted(ArtifactApp(a), PublicIdOf(a, ordinal))
    else Retained(ArtifactApp(a), PublicIdOf(a, ordinal), s.code)
  }

  function PublicItems(plan: seq<Artifact>, items: seq<ItemStatus>): seq<PublicItem>
    requires |plan| == |items| && AllTerminal(items)
  {
    seq(|plan|, i requires 0 <= i < |plan| => PublicItemOf(plan[i], i, items[i]))
  }

  /** The response that the ledger of a finished operation justifies. */
  function ExpectedBody(op: OpId, o: Operation): Body
    requires |o.plan| == |o.items| && AllTerminal(o.items)
  {
    Body(op, o.plan, FinalStatus(o.items), PublicItems(o.plan, o.items))
  }

  /** What a status tells about the items. */
  ghost predicate TellsOutcome(status: OpStatus, items: seq<ItemStatus>) {
    && (status == StCompletedWithFailures <==> exists i :: 0 <= i < |items| && items[i].Failed?)
    && (status == StCompleted <==> forall i :: 0 <= i < |items| ==> items[i] == Detached)
  }

  /** What a public item tells about an item: which artifact it is, whether it is gone, and
      if not, why. A temporary file is told by its number in the plan, counted from one. */
  ghost predicate TellsItem(a: Artifact, i: nat, s: ItemStatus, item: PublicItem) {
    && (s == Detached <==> item.Deleted?)
    && (item.Retained? ==> s == Failed(item.code))
    && match a
       case Release(app, id, _) => item.app == Some(app) && item.id == Id(id)
       case ConfigRevision(app, id) => item.app == Some(app) && item.id == Id(id)
       case Temporary(owner, _, _) => item.app == owner && item.id == TemporaryNumber(i + 1)
  }

  /** What a response tells about an operation. */
  ghost predicate TellsBody(op: OpId, o: Operation, body: Body) {
    && body.op == op && body.plan == o.plan
    && TellsOutcome(body.status, o.items)
    && |body.items| == |o.plan| == |o.items|
    && forall i :: 0 <= i < |body.items| ==> TellsItem(o.plan[i], i, o.items[i], body.items[i])
  }

  /** The expected response tells the truth. */
  lemma ExpectedBodyTells(op: OpId, o: Operation)
    requires |o.plan| == |o.items| && AllTerminal(o.items)
    ensures TellsBody(op, o, ExpectedBody(op, o))
    ensures TellsOutcome(FinalStatus(o.items), o.items)
  {
  }

  // ---------- Invariant of one operation in one file system state ----------

  /** Everything before item `i` is recorded, and no release that names it was kept. */
  ghost predicate Cleared(o: Operation, i: nat)
    requires i < |o.plan| == |o.items|
  {
    forall j :: 0 <= j < i ==>
      o.items[j] != Planned && (Names(o.plan[j], o.plan[i]) ==> o.items[j] == Detached)
  }

  /** Item `i` is in exactly one place, and in the place its status says. Only the
      first unrecorded item may already be in the payload. */
  ghost predicate ItemOk(o: Operation, i: nat, payload: map<nat, Inode>, canonical: map<Artifact, Inode>, born: map<Artifact, Inode>)
    requires i < |o.plan| == |o.items|
  {
    var a := o.plan[i];
    a in born &&
    match o.items[i]
    case Detached => i in payload && payload[i] == born[a] && a !in canonical
    case Failed(_) => i !in payload && a in canonical
    case Planned =>
      if i in payload then payload[i] == born[a] && a !in canonical && Cleared(o, i)
      else a in canonical
  }

  ghost predicate ItemsOk(o: Operation, payload: map<nat, Inode>, canonical: map<Artifact, Inode>, born: map<Artifact, Inode>)
    requires |o.plan| == |o.items|
  {
    && (forall i :: i in payload ==> i < |o.plan|)
    && (forall i :: 0 <= i < |o.plan| ==> ItemOk(o, i, payload, canonical, born))
  }

  /** After destruction began: what was detached is gone and what was retained is kept. */
  ghost predicate SettledItems(o: Operation, canonical: map<Artifact, Inode>, born: map<Artifact, Inode>)
    requires |o.plan| == |o.items|
  {
    forall i :: 0 <= i < |o.plan| ==>
      && o.plan[i] in born
      && (o.items[i].Detached? ==> o.plan[i] !in canonical)
      && (o.items[i].Failed? && !o.retired ==> o.plan[i] in canonical)
  }

  /** A published tombstone whose payload nobody has started to destroy. */
  ghost predicate FullTombstone(o: Operation, t: Trash, canonical: map<Artifact, Inode>, born: map<Artifact, Inode>)
    requires |o.plan| == |o.items|
  {
    && !t.preparing && t.retired.None?
    && t.dir.Some? && t.dir.value.marker == Some(o.plan)
    && t.dir.value.payload.Some?
    && ItemsOk(o, t.dir.value.payload.value, canonical, born)
  }

  /** The stages that an interrupted retirement may leave behind. */
  ghost predicate RetirementStage(o: Operation, t: Trash) {
    && !t.preparing
    && (match t.retired
        case None =>
          t.dir.Some? ==>
            && t.dir.value.marker == Some(o.plan)
            && (t.dir.value.payload.Some? ==>
                  forall i :: i in t.dir.value.payload.value ==> i < |o.plan|)
        case Some(plan) =>
          plan == o.plan && (t.dir.None? || t.dir.value == OpDir(None, None)))
  }

  ghost predicate OpInv(op: OpId, o: Operation, t: Trash, canonical: map<Artifact, Inode>, born: map<Artifact, Inode>) {
    && |o.plan| == |o.items| <= MAX_CLEANUP_ITEMS
    && NoDuplicates(o.plan)
    && if !Terminal(o.status) then
         && !o.retiring && !o.retired && o.proof.Recoverable?
         && (o.status == StPlanned ==> forall i :: 0 <= i < |o.items| ==> o.items[i] == Planned)
         && (FullTombstone(o, t, canonical, born)
             || (o.status == StPlanned && t.dir.None? && t.retired.None? && ItemsOk(o, map[], canonical, born)))
       else
         && AllTerminal(o.items) && o.status == FinalStatus(o.items)
         && (o.proof.Succeeded? ==> o.proof.body == ExpectedBody(op, o))
         && (if o.retired then
               !o.retiring && o.proof.Succeeded? && t == EmptyTrash && SettledItems(o, canonical, born)
             else if o.retiring then
               o.proof.Succeeded? && RetirementStage(o, t) && SettledItems(o, canonical, born)
             else
               FullTombstone(o, t, canonical, born))
  }

  // ---------- Invariant of the whole world ----------

  /** Artifact `a` is still reserved by an operation. */
  predicate IsOpen(o: Operation, a: Artifact) {
    exists i :: 0 <= i < |o.plan| && i < |o.items| && o.plan[i] == a && o.items[i] != Detached
  }

  /** Two unretired operations never reserve the same artifact. */
  ghost predicate Exclusive(db: map<OpId, Operation>) {
    forall x, y, a ::
      x in db && y in db && x != y && !db[x].retired && !db[y].retired && IsOpen(db[x], a) ==> !IsOpen(db[y], a)
  }

  /** An operation detached artifact `a`, or at least moved it into its payload. */
  ghost predicate Takes(o: Operation, t: Trash, a: Artifact) {
    exists i :: 0 <= i < |o.plan| && i < |o.items| && o.plan[i] == a && (o.items[i] == Detached || i in PayloadKeys(t))
  }

  /** Artifact `a` is in the store, or some operation took it. */
  ghost predicate Accounted(db: map<OpId, Operation>, fs: Fs, a: Artifact) {
    a in fs.canonical || exists op :: op in db && Takes(db[op], TrashOf(fs, op), a)
  }

  ghost predicate FsInv(db: map<OpId, Operation>, fs: Fs, born: map<Artifact, Inode>) {
    && fs.trash.Keys <= db.Keys
    && (forall a :: a in fs.canonical ==> a in born && fs.canonical[a] == born[a])
    && (forall a {:trigger Accounted(db, fs, a)} :: a in born ==> Accounted(db, fs, a))
    && (forall op {:trigger OpInv(op, db[op], TrashOf(fs, op), fs.canonical, born)} ::
          op in db ==> OpInv(op, db[op], TrashOf(fs, op), fs.canonical, born))
  }

  /** One operation changes nothing outside the directories it names, and cleanup
      never adds to the store. */
  ghost predicate EntryStep(prev: Fs, e: Entry) {
    && e.fs.canonical.Keys <= prev.canonical.Keys
    && (forall a {:trigger Parent(a)} :: Parent(a) !in e.dirs ==> (a in prev.canonical <==> a in e.fs.canonical))
    && (forall op {:trigger TrashOf(e.fs, op)} :: StaysOutside(op, e.dirs, TrashOf(prev, op), TrashOf(e.fs, op)))
  }

  /** What lies outside the named directories stays. */
  ghost predicate StaysOutside(op: OpId, dirs: set<Dir>, t: Trash, t': Trash) {
    && (TrashRoot !in dirs ==> RootView(t') == RootView(t))
    && (OperationDir(op) !in dirs ==> DirectoryView(t') == DirectoryView(t))
    && (PayloadDir(op) !in dirs ==> PayloadKeys(t') == PayloadKeys(t))
  }

  ghost predicate LogOk(log: seq<Entry>) {
    |log| > 0 && (|log| > 1 ==>
      LogOk(log[..|log| - 1]) && EntryStep(log[|log| - 2].fs, log[|log| - 1]))
  }

  ghost predicate Inv(w: World) {
    && LogOk(w.log)
    && Exclusive(w.db)
    && (forall e {:trigger FsInv(w.db, e.fs, w.born)} :: e in w.log ==> FsInv(w.db, e.fs, w.born))
  }

  // ---------- Changes of the file system, the ledger and the log ----------

  function Append(w: World, dirs: set<Dir>, fs: Fs): World {
    w.(log := w.log + [Entry(dirs, fs)])
  }

  function WithTrash(w: World, op: OpId, t: Trash, dirs: set<Dir>): World
    requires |w.log| > 0
  {
    var fs := Visible(w);
    Append(w, dirs, fs.(trash := fs.trash[op := t]))
  }

  /** The rename that detaches item `i`. */
  function Moved(w: World, op: OpId, i: nat): World
    requires |w.log| > 0 && op in w.db && i < |w.db[op].plan|
    requires TrashOf(Visible(w), op).dir.Some?
    requires TrashOf(Visible(w), op).dir.value.payload.Some?
    requires w.db[op].plan[i] in Visible(w).canonical
  {
    var a, fs := w.db[op].plan[i], Visible(w);
    var d := TrashOf(fs, op).dir.value;
    var t := TrashOf(fs, op).(dir := Some(d.(payload := Some(d.payload.value[i := fs.canonical[a]]))));
    Append(w, {Parent(a), PayloadDir(op)}, Fs(fs.canonical - {a}, fs.trash[op := t]))
  }

  function WithRow(w: World, op: OpId, o: Operation): World {
    w.(db := w.db[op := o])
  }

  function Flush(log: seq<Entry>, d: Dir): seq<Entry>
    requires |log| > 0
  {
    var last := log[|log| - 1];
    if |log| == 1 || d in last.dirs then [last] else Flush(log[..|log| - 1], d) + [last]
  }

  function Synced(w: World, d: Dir): World
    requires |w.log| > 0
  {
    w.(log := Flush(w.log, d))
  }

  /** Power loss keeps the first `k + 1` entries and forgets the rest. */
  function AfterPowerLoss(w: World, k: nat): World
    requires k < |w.log|
  {
    w.(log := [w.log[k]])
  }

  /** A publisher creates an artifact and syncs its directory, which makes everything
      before it durable too. */
  function Created(w: World, a: Artifact, inode: Inode): World
    requires |w.log| > 0
  {
    var fs := Visible(w);
    World(w.db, [Entry({Parent(a)}, fs.(canonical := fs.canonical[a := inode]))], w.born[a := inode])
  }

  function Published(w: World, op: OpId, plan: seq<Artifact>): World {
    WithRow(w, op, Operation(plan, StPlanned, seq(|plan|, _ => Planned), false, Recoverable, false))
  }

  /** Everything that an unretired operation reserves is in its place. */
  predicate ReservedInPlace(w: World)
    requires |w.log| > 0
  {
    forall op, i ::
      op in w.db && !w.db[op].retired && 0 <= i < |w.db[op].plan| && IsOpen(w.db[op], w.db[op].plan[i]) ==>
        w.db[op].plan[i] in Visible(w).canonical
  }

  /** What a plan must satisfy when it is published under the catalog lock. */
  predicate Admissible(w: World, plan: seq<Artifact>)
    requires |w.log| > 0
  {
    && |plan| <= MAX_CLEANUP_ITEMS && NoDuplicates(plan)
    && (forall i :: 0 <= i < |plan| ==> plan[i] in Visible(w).canonical)
    && (forall op, i :: op in w.db && !w.db[op].retired && 0 <= i < |plan| ==> !IsOpen(w.db[op], plan[i]))
    && ReservedInPlace(w)
  }
}
