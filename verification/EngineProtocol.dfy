/** The engine's cached-document protocol for one document, over any number of nodes sharing the store and any
    number of goroutines per node. One action is one lock-protected region or one store call.

    Everything the engine shares between goroutines is keyed by document (the `docs` map entry, the docState it
    points to, the op log and the snapshots), so the runs of one document are modelled. */
module EngineProtocol {
  import opened Core
  import opened Crdt

  type Gid = nat     // a goroutine
  type CellId = nat  // the address of a docState

  datatype Job =
    | Submit(session: SessionId, payload: Bytes)
    | ManualSnapshot
    | Export

  /** Where a goroutine is. From `Locked` to `Published` it holds its docState's lock. `Install` remembers how long the
      log was when it was read. */
  datatype Pc =
    | Lookup
    | ReadSnapshot
    | ReadOps(base: Bytes, atSeq: nat)
    | Install(doc: Doc, at: nat)
    | Acquire(cell: CellId)
    | Locked(cell: CellId)
    | Applied(cell: CellId)
    | Appended(cell: CellId, seqNo: nat)
    | Emitted(cell: CellId, seqNo: nat)
    | Saved(cell: CellId, seqNo: nat)
    | Published(cell: CellId, seqNo: nat)
    | Sized(cell: CellId, latest: nat)
    | Acked(seqNo: nat)
    | SnapshotTaken(seqNo: nat)
    | Exported(doc: Doc)
    | Failed

  datatype Proc = Proc(node: NodeId, job: Job, pc: Pc)

  /** A docState: the materialised document and the holder of its lock; and, as history, how much of the log it was
      loaded from and which entries were appended through it. */
  datatype Cell = Cell(doc: Doc, owner: Option<Gid>, loaded: nat, own: set<nat>)

  /** `log` and `snaps` are the store. `entry` is each node's `docs` map. The fields after `deleting` are history about
      the present life of the document: what was broadcast, what was acked, how often the created event fired, whether
      a crash took the submit that had committed entry 1 before it could fire the event, the changes of payloads whose
      append was refused after they had been merged, the numbers whose periodic save failed or was lost with its node,
      and the numbers saved by hand. */
  datatype State = State(
    log: seq<Op>,
    snaps: map<nat, Bytes>,
    entry: map<NodeId, CellId>,
    cells: map<CellId, Cell>,
    procs: map<Gid, Proc>,
    deleting: bool,
    announced: seq<Op>,
    acked: seq<Op>,
    created: nat,
    silenced: bool,
    refused: set<Change>,
    missed: set<nat>,
    manual: set<nat>)

  const INIT := State([], map[], map[], map[], map[], false, [], [], 0, false, {}, {}, {})

  /** What the resolver did for one change: not configured, configured but the history stayed linear, an error or
      timeout, or a reply. */
  datatype Resolution = Unconfigured | NotConsulted | Errored | Replied(state: Bytes)

  datatype Config = Config(am: Automerge, snapshotEvery: int)

  datatype Action =
    | DoStart(g: Gid, node: NodeId, job: Job)
    | DoLookup(g: Gid)
    | DoReadSnapshot(g: Gid, ok: bool)
    | DoReadOps(g: Gid, ok: bool)
    | DoInstall(g: Gid, newCell: CellId)
    | DoAcquire(g: Gid)
    | DoApply(g: Gid, r: Resolution)
    | DoAppend(g: Gid, ok: bool)
    | DoEmit(g: Gid)
    | DoSave(g: Gid, ok: bool)
    | DoPublish(g: Gid)
    | DoReturn(g: Gid)
    | DoLatest(g: Gid)
    | DoSaveManual(g: Gid, ok: bool)
    | DoExport(g: Gid)
    | DoCrash(node: NodeId)
    | DoDelete
    | DoForget(node: NodeId)

  // ----- the pieces of a step -----------------------------------------------------------------------------------

  /** Merging a client's change. The resolver can only replace the document by replying with a loadable state. */
  function ApplyChange(am: Automerge, d: Doc, payload: Bytes, r: Resolution): Option<Doc> {
    match Merge(am, d, payload)
    case None => None
    case Some(merged) =>
      match r
      case Replied(bytes) =>
        (match am.load(bytes) case None => Some(merged) case Some(resolved) => Some(resolved))
      case _ => Some(merged)
  }

  lemma {:induction false} MaxExists(s: set<nat>)
    requires s != {}
    ensures exists n :: n in s && forall m :: m in s ==> m <= n
    decreases |s|
  {
    var x :| x in s;
    if s != {x} {
      assert s - {x} != {};
      MaxExists(s - {x});
      var n :| n in s - {x} && forall m :: m in s - {x} ==> m <= n;
      var top := if x <= n then n else x;
      assert top in s;
      forall m | m in s
        ensures m <= top
      {
        assert m == x || m in s - {x};
      }
    } else {
      assert x in s;
    }
  }

  /** The highest-numbered snapshot. */
  ghost function Highest(snaps: map<nat, Bytes>): (n: nat)
    requires snaps != map[]
    ensures n in snaps
    ensures forall m :: m in snaps ==> m <= n
  {
    assert snaps.Keys != {} by {
      var x :| x in snaps;
      assert x in snaps.Keys;
    }
    MaxExists(snaps.Keys);
    var n :| n in snaps.Keys && forall m :: m in snaps.Keys ==> m <= n;
    n
  }

  ghost function SnapSeq(snaps: map<nat, Bytes>): nat {
    if snaps == map[] then 0 else Highest(snaps)
  }

  ghost function SnapState(snaps: map<nat, Bytes>): Bytes {
    if snaps == map[] then [] else snaps[Highest(snaps)]
  }

  /** What loading the document from the store yields when nothing interferes. */
  ghost function Loaded(am: Automerge, s: State): Option<Doc> {
    Rehydrated(am, SnapState(s.snaps), Since(s.log, SnapSeq(s.snaps)))
  }

  ghost predicate At(s: State, g: Gid) {
    g in s.procs
  }

  ghost function Goto(s: State, g: Gid, pc: Pc): State
    requires At(s, g)
  {
    s.(procs := s.procs[g := s.procs[g].(pc := pc)])
  }

  ghost function Unlock(s: State, c: CellId): State
    requires c in s.cells
  {
    s.(cells := s.cells[c := s.cells[c].(owner := None)])
  }

  predicate Holding(pc: Pc) {
    pc.Locked? || pc.Applied? || pc.Appended? || pc.Emitted? || pc.Saved? || pc.Published? || pc.Sized?
  }

  predicate Finished(pc: Pc) {
    pc.Acked? || pc.SnapshotTaken? || pc.Exported? || pc.Failed?
  }

  /** Committed but not yet answered. */
  predicate Committing(pc: Pc) {
    pc.Appended? || pc.Emitted? || pc.Saved? || pc.Published?
  }

  /** Committed, with the periodic save still to come. */
  predicate BeforeSave(pc: Pc) {
    pc.Appended? || pc.Emitted?
  }

  /** Committed entry 1, with the created event still to come. */
  predicate Unborn(pc: Pc) {
    pc.Appended? && pc.seqNo == 1
  }

  function OpOf(p: Proc, n: nat): Op
    requires p.job.Submit?
  {
    Op(n, p.job.session, p.job.payload)
  }

  // ----- one function per region; None when the goroutine is not there or has to wait ----------------------------

  ghost function Start(s: State, g: Gid, node: NodeId, job: Job): Option<State> {
    if g in s.procs then None
    else Some(s.(procs := s.procs[g := Proc(node, job, if job.Submit? && |job.payload| == 0 then Failed else Lookup)]))
  }

  /** The first look into the `docs` map. */
  ghost function LookUp(s: State, g: Gid): Option<State> {
    if !At(s, g) || !s.procs[g].pc.Lookup? then None
    else
      var node := s.procs[g].node;
      Some(Goto(s, g, if node in s.entry then Acquire(s.entry[node]) else ReadSnapshot))
  }

  ghost function GetSnapshot(s: State, g: Gid, ok: bool): Option<State> {
    if !At(s, g) || !s.procs[g].pc.ReadSnapshot? then None
    else Some(Goto(s, g, if ok then ReadOps(SnapState(s.snaps), SnapSeq(s.snaps)) else Failed))
  }

  ghost function GetOps(am: Automerge, s: State, g: Gid, ok: bool): Option<State> {
    if !At(s, g) || !s.procs[g].pc.ReadOps? then None
    else
      var doc := Rehydrated(am, s.procs[g].pc.base, Since(s.log, s.procs[g].pc.atSeq));
      Some(Goto(s, g, if ok && doc.Some? then Install(doc.value, |s.log|) else Failed))
  }

  /** The second look into the map: an entry installed meanwhile wins over the loaded document. */
  ghost function InstallDoc(s: State, g: Gid, newCell: CellId): Option<State> {
    if !At(s, g) || !s.procs[g].pc.Install? then None
    else if s.procs[g].node in s.entry then Some(Goto(s, g, Acquire(s.entry[s.procs[g].node])))
    else if newCell in s.cells then None
    else
      var pc := s.procs[g].pc;
      Some(Goto(s, g, Acquire(newCell)).(entry := s.entry[s.procs[g].node := newCell],
                                         cells := s.cells[newCell := Cell(pc.doc, None, pc.at, {})]))
  }

  ghost function AcquireLock(s: State, g: Gid): Option<State> {
    if !At(s, g) || !s.procs[g].pc.Acquire? then None
    else
      var c := s.procs[g].pc.cell;
      if c !in s.cells || s.cells[c].owner.Some? then None
      else Some(Goto(s, g, Locked(c)).(cells := s.cells[c := s.cells[c].(owner := Some(g))]))
  }

  ghost predicate Holds(s: State, g: Gid) {
    At(s, g) && Holding(s.procs[g].pc) && s.procs[g].pc.cell in s.cells
  }

  ghost function Apply(am: Automerge, s: State, g: Gid, r: Resolution): Option<State> {
    if !Holds(s, g) || !s.procs[g].pc.Locked? || !s.procs[g].job.Submit? then None
    else
      var c := s.procs[g].pc.cell;
      var d := ApplyChange(am, s.cells[c].doc, s.procs[g].job.payload, r);
      var cell := if d.None? then s.cells[c].(owner := None) else s.cells[c].(doc := d.value);
      Some(Goto(s, g, if d.None? then Failed else Applied(c)).(cells := s.cells[c := cell]))
  }

  /** The append either commits the op under the next number or commits nothing. */
  ghost function Append(am: Automerge, s: State, g: Gid, ok: bool): Option<State> {
    if !Holds(s, g) || !s.procs[g].pc.Applied? || !s.procs[g].job.Submit? then None
    else
      var c := s.procs[g].pc.cell;
      if !ok then
        Some(Unlock(Goto(s, g, Failed), c).(refused := s.refused + Changes(am, s.procs[g].job.payload)))
      else
        var n := |s.log| + 1;
        Some(Goto(s, g, Appended(c, n)).(log := s.log + [OpOf(s.procs[g], n)],
                                         cells := s.cells[c := s.cells[c].(own := s.cells[c].own + {n})]))
  }

  ghost function Emit(s: State, g: Gid): Option<State> {
    if !Holds(s, g) || !s.procs[g].pc.Appended? then None
    else
      var pc := s.procs[g].pc;
      Some(Goto(s, g, Emitted(pc.cell, pc.seqNo)).(created := if pc.seqNo == 1 then s.created + 1 else s.created))
  }

  predicate SnapshotDue(k: int, n: nat) {
    k > 0 && n % k == 0
  }

  ghost function Save(cfg: Config, s: State, g: Gid, ok: bool): Option<State> {
    if !Holds(s, g) || !s.procs[g].pc.Emitted? then None
    else
      var pc := s.procs[g].pc;
      var due := SnapshotDue(cfg.snapshotEvery, pc.seqNo);
      Some(Goto(s, g, Saved(pc.cell, pc.seqNo)).(
             snaps := if due && ok then s.snaps[pc.seqNo := cfg.am.save(s.cells[pc.cell].doc)] else s.snaps,
             missed := if due && !ok then s.missed + {pc.seqNo} else s.missed))
  }

  ghost function Publish(s: State, g: Gid): Option<State> {
    if !Holds(s, g) || !s.procs[g].pc.Saved? || !s.procs[g].job.Submit? then None
    else
      var pc := s.procs[g].pc;
      Some(Goto(s, g, Published(pc.cell, pc.seqNo)).(announced := s.announced + [OpOf(s.procs[g], pc.seqNo)]))
  }

  ghost function Return(s: State, g: Gid): Option<State> {
    if !Holds(s, g) || !s.procs[g].pc.Published? || !s.procs[g].job.Submit? then None
    else
      var pc := s.procs[g].pc;
      Some(Unlock(Goto(s, g, Acked(pc.seqNo)), pc.cell).(acked := s.acked + [OpOf(s.procs[g], pc.seqNo)]))
  }

  ghost function GetLatest(s: State, g: Gid): Option<State> {
    if !Holds(s, g) || !s.procs[g].pc.Locked? || !s.procs[g].job.ManualSnapshot? then None
    else Some(Goto(s, g, Sized(s.procs[g].pc.cell, |s.log|)))
  }

  ghost function SaveManual(am: Automerge, s: State, g: Gid, ok: bool): Option<State> {
    if !Holds(s, g) || !s.procs[g].pc.Sized? then None
    else
      var pc := s.procs[g].pc;
      var d := s.cells[pc.cell].doc;
      Some(Unlock(Goto(s, g, if ok then SnapshotTaken(pc.latest) else Failed), pc.cell).(
             snaps := if ok then s.snaps[pc.latest := am.save(d)] else s.snaps,
             manual := if ok then s.manual + {pc.latest} else s.manual))
  }

  ghost function ExportDoc(s: State, g: Gid): Option<State> {
    if !Holds(s, g) || !s.procs[g].pc.Locked? || !s.procs[g].job.Export? then None
    else
      var c := s.procs[g].pc.cell;
      Some(Unlock(Goto(s, g, Exported(s.cells[c].doc)), c))
  }

  /** The numbers of the periodic saves a node has still to make. */
  ghost function OwedBy(s: State, node: NodeId): set<nat> {
    set g | g in s.procs && s.procs[g].node == node && BeforeSave(s.procs[g].pc) :: s.procs[g].pc.seqNo
  }

  /** A node dies: its cache and its goroutines go, and with them the saves they owe; the store stays. */
  ghost function Crash(s: State, node: NodeId): State {
    s.(entry := s.entry - {node},
       procs := map g | g in s.procs && s.procs[g].node != node :: s.procs[g],
       deleting := false,
       silenced := s.silenced || (exists g :: g in s.procs && s.procs[g].node == node && Unborn(s.procs[g].pc)),
       missed := s.missed + OwedBy(s, node))
  }

  /** The row goes, and its operations and snapshots with it: a new life of the document starts. */
  ghost function Delete(s: State): State {
    s.(log := [], snaps := map[],
       procs := map g | g in s.procs && !Finished(s.procs[g].pc) :: s.procs[g],
       deleting := true,
       announced := [], acked := [], created := 0, silenced := false, refused := {}, missed := {}, manual := {})
  }

  ghost function Forget(s: State, node: NodeId): State {
    s.(entry := s.entry - {node}, deleting := false)
  }

  ghost function Step(cfg: Config, s: State, a: Action): Option<State> {
    match a
    case DoStart(g, node, job) => Start(s, g, node, job)
    case DoLookup(g) => LookUp(s, g)
    case DoReadSnapshot(g, ok) => GetSnapshot(s, g, ok)
    case DoReadOps(g, ok) => GetOps(cfg.am, s, g, ok)
    case DoInstall(g, newCell) => InstallDoc(s, g, newCell)
    case DoAcquire(g) => AcquireLock(s, g)
    case DoApply(g, r) => Apply(cfg.am, s, g, r)
    case DoAppend(g, ok) => Append(cfg.am, s, g, ok)
    case DoEmit(g) => Emit(s, g)
    case DoSave(g, ok) => Save(cfg, s, g, ok)
    case DoPublish(g) => Publish(s, g)
    case DoReturn(g) => Return(s, g)
    case DoLatest(g) => GetLatest(s, g)
    case DoSaveManual(g, ok) => SaveManual(cfg.am, s, g, ok)
    case DoExport(g) => ExportDoc(s, g)
    case DoCrash(node) => Some(Crash(s, node))
    case DoDelete => Some(Delete(s))
    case DoForget(node) => Some(Forget(s, node))
  }
}
