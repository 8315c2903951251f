/** Deleting a document while requests on it are in flight, with a resolver that may replace the document. A delete is
    two steps, the row and then the cached document; this module says which stages of a request the two steps may cross
    without an acked change being lost. For every other stage there is a run that loses one. */
module EngineDelete {
  import opened Core
  import opened Crdt
  import opened Runs
  import opened EngineProtocol
  import opened EngineCache

  // ----- the stages a delete must not cross -----------------------------------------------------------------------

  /** At the row's delete: a load that has read a snapshot of the old life; a manual snapshot that has read the old
      log's length; a submit that has committed and owes a periodic save. At the cached document's drop: a load that
      has read everything and not yet looked into the map again; a submit that has its docState and has not appended;
      a manual snapshot that has its docState and has not read the log's length. */
  datatype Hazard =
    | LoadFromSnapshot | SizedSnapshot | AppendedDue | EmittedDue
    | LoadedDoc | SubmitWaiting | SubmitLocked | SubmitMerged | SnapshotWaiting | SnapshotLocked

  function DeleteHazard(k: int, p: Proc): Option<Hazard> {
    match p.pc
    case ReadOps(_, atSeq) => if atSeq > 0 then Some(LoadFromSnapshot) else None
    case Sized(_, latest) => if latest > 0 then Some(SizedSnapshot) else None
    case Appended(_, n) => if SnapshotDue(k, n) then Some(AppendedDue) else None
    case Emitted(_, n) => if SnapshotDue(k, n) then Some(EmittedDue) else None
    case _ => None
  }

  function ForgetHazard(p: Proc): Option<Hazard> {
    match p.pc
    case Install(_, _) => Some(LoadedDoc)
    case Acquire(_) =>
      if p.job.Submit? then Some(SubmitWaiting) else if p.job.ManualSnapshot? then Some(SnapshotWaiting) else None
    case Locked(_) =>
      if p.job.Submit? then Some(SubmitLocked) else if p.job.ManualSnapshot? then Some(SnapshotLocked) else None
    case Applied(_) => Some(SubmitMerged)
    case _ => None
  }

  /** The two steps cross only harmless stages and tolerated hazards. */
  ghost predicate Crosses(k: int, tolerated: set<Hazard>, s: State, a: Action) {
    && (a.DoDelete? ==>
          forall g :: g in s.procs && DeleteHazard(k, s.procs[g]).Some? ==>
                        DeleteHazard(k, s.procs[g]).value in tolerated)
    && (a.DoForget? ==>
          forall g :: g in s.procs && ForgetHazard(s.procs[g]).Some? ==> ForgetHazard(s.procs[g]).value in tolerated)
  }

  /** A reply that replaces the document contains the state and the change the resolver was sent. */
  ghost predicate KeepsSent(am: Automerge, s: State, g: Gid, r: Resolution) {
    r.Replied? && am.load(r.state).Some? && Holds(s, g) && s.procs[g].job.Submit? ==>
      s.cells[s.procs[g].pc.cell].doc + Changes(am, s.procs[g].job.payload) <= am.load(r.state).value
  }

  /** One node, whose resolver keeps what it is sent. */
  ghost predicate OnNode(am: Automerge, h: NodeId, s: State, a: Action) {
    (a.DoStart? || a.DoCrash? || a.DoForget? ==> a.node == h) && (a.DoApply? ==> KeepsSent(am, s, a.g, a.r))
  }

  ghost function CrossStep(cfg: Config, h: NodeId, tolerated: set<Hazard>): (State, Action) -> Option<State> {
    (s, a) => if OnNode(cfg.am, h, s, a) && Crosses(cfg.snapshotEvery, tolerated, s, a) then Step(cfg, s, a) else None
  }

  // ----- the invariant -------------------------------------------------------------------------------------------

  /** `bytes` has at least the first n entries. */
  ghost predicate Contains(am: Automerge, log: seq<Op>, bytes: Bytes, n: nat) {
    n <= |log| && Base(am, bytes).Some? && Fold(am, log[..n]) <= Base(am, bytes).value
  }

  /** The goroutine will append to the log, or number a snapshot by it. */
  predicate Writes(p: Proc) {
    || (p.job.Submit? && (p.pc.Acquire? || p.pc.Locked? || p.pc.Applied?))
    || (p.job.ManualSnapshot? && (p.pc.Acquire? || p.pc.Locked?))
  }

  /** Goroutines that will write hold the docState of the map; those that will save hold one with the entries they will
      number it for. Others may hold a docState that was dropped. */
  ghost predicate ProcOk(k: int, am: Automerge, h: NodeId, s: State, p: Proc) {
    && p.node == h
    && (HasCell(p.pc) ==> p.pc.cell in s.cells)
    && (Writes(p) ==> h in s.entry && p.pc.cell == s.entry[h])
    && (p.pc.Applied? ==>
          p.job.Submit? && Decodes(am, p.job.payload) && Changes(am, p.job.payload) <= s.cells[p.pc.cell].doc)
    && (p.pc.ReadOps? ==> Contains(am, s.log, p.pc.base, p.pc.atSeq))
    && (p.pc.Install? && h !in s.entry ==> Fold(am, s.log) <= p.pc.doc)
    && (BeforeSave(p.pc) && SnapshotDue(k, p.pc.seqNo) ==>
          p.pc.seqNo <= |s.log| && Fold(am, s.log[..p.pc.seqNo]) <= s.cells[p.pc.cell].doc)
    && (p.pc.Sized? ==> p.pc.latest <= |s.log| && Fold(am, s.log[..p.pc.latest]) <= s.cells[p.pc.cell].doc)
  }

  ghost predicate EntryOk(am: Automerge, h: NodeId, s: State) {
    h in s.entry ==> s.entry[h] in s.cells && Fold(am, s.log) <= s.cells[s.entry[h]].doc
  }

  ghost predicate SnapsOk(am: Automerge, s: State) {
    forall n :: n in s.snaps ==> Contains(am, s.log, s.snaps[n], n)
  }

  ghost predicate Lasting(k: int, am: Automerge, h: NodeId, s: State) {
    AllDecode(am, s.log) && EntryOk(am, h, s) && SnapsOk(am, s)
      && forall g :: g in s.procs ==> ProcOk(k, am, h, s, s.procs[g])
  }

  // ----- every step keeps it -------------------------------------------------------------------------------------

  lemma ContainsKept(am: Automerge, log: seq<Op>, log': seq<Op>, bytes: Bytes, n: nat)
    requires Contains(am, log, bytes, n) && log <= log'
    ensures Contains(am, log', bytes, n)
  {
    assert log'[..n] == log[..n];
  }

  /** Log and documents only grow, and the log only through an entry of the map. */
  ghost predicate Grows(h: NodeId, s: State, s': State) {
    && s.log <= s'.log
    && (forall c :: c in s.cells ==> c in s'.cells && s.cells[c].doc <= s'.cells[c].doc)
    && (h in s.entry ==> h in s'.entry && s'.entry[h] == s.entry[h])
    && (s'.log != s.log ==> h in s.entry)
  }

  lemma ProcKept(k: int, am: Automerge, h: NodeId, s: State, s': State, p: Proc)
    requires ProcOk(k, am, h, s, p) && Grows(h, s, s')
    ensures ProcOk(k, am, h, s', p)
  {
    if p.pc.ReadOps? {
      ContainsKept(am, s.log, s'.log, p.pc.base, p.pc.atSeq);
    } else if p.pc.Sized? {
      assert s'.log[..p.pc.latest] == s.log[..p.pc.latest];
    } else if BeforeSave(p.pc) && SnapshotDue(k, p.pc.seqNo) {
      assert s'.log[..p.pc.seqNo] == s.log[..p.pc.seqNo];
    }
  }

  /** A step of goroutine g. */
  lemma GrowthKeepsLasting(k: int, am: Automerge, h: NodeId, s: State, s': State, g: Gid)
    requires Lasting(k, am, h, s) && Grows(h, s, s')
    requires g in s'.procs && s'.procs == s.procs[g := s'.procs[g]] && ProcOk(k, am, h, s', s'.procs[g])
    requires AllDecode(am, s'.log) && EntryOk(am, h, s')
    requires forall n :: n in s'.snaps ==>
                           (n in s.snaps && s'.snaps[n] == s.snaps[n]) || Contains(am, s'.log, s'.snaps[n], n)
    ensures Lasting(k, am, h, s')
  {
    forall x | x in s'.procs && x != g ensures ProcOk(k, am, h, s', s'.procs[x]) {
      ProcKept(k, am, h, s, s', s.procs[x]);
    }
    forall n | n in s'.snaps ensures Contains(am, s'.log, s'.snaps[n], n) {
      if n in s.snaps && s'.snaps[n] == s.snaps[n] { ContainsKept(am, s.log, s'.log, s.snaps[n], n); }
    }
  }

  lemma StartKeepsLasting(k: int, am: Automerge, h: NodeId, s: State, g: Gid, job: Job)
    requires Lasting(k, am, h, s) && Start(s, g, h, job).Some?
    ensures Lasting(k, am, h, Start(s, g, h, job).value)
  {
    GrowthKeepsLasting(k, am, h, s, Start(s, g, h, job).value, g);
  }

  lemma LookUpKeepsLasting(k: int, am: Automerge, h: NodeId, s: State, g: Gid)
    requires Lasting(k, am, h, s) && LookUp(s, g).Some?
    ensures Lasting(k, am, h, LookUp(s, g).value)
  {
    assert ProcOk(k, am, h, s, s.procs[g]);
    GrowthKeepsLasting(k, am, h, s, LookUp(s, g).value, g);
  }

  /** The newest snapshot and the entries after it are the whole log. */
  lemma ContainsAll(am: Automerge, log: seq<Op>, bytes: Bytes, n: nat)
    requires Contains(am, log, bytes, n) && AllDecode(am, log)
    ensures Rehydrated(am, bytes, Since(log, n)).Some? && Fold(am, log) <= Rehydrated(am, bytes, Since(log, n)).value
  {
    SnapshotPlusTail(am, log, n, bytes, Base(am, bytes).value);
  }

  lemma NewestContains(am: Automerge, s: State)
    requires SnapsOk(am, s)
    ensures Contains(am, s.log, SnapState(s.snaps), SnapSeq(s.snaps))
  {
    if s.snaps == map[] { assert s.log[..0] == []; }
  }

  lemma ReadKeepsLasting(k: int, am: Automerge, h: NodeId, s: State, g: Gid, ok: bool)
    requires Lasting(k, am, h, s) && GetSnapshot(s, g, ok).Some?
    ensures Lasting(k, am, h, GetSnapshot(s, g, ok).value)
  {
    assert ProcOk(k, am, h, s, s.procs[g]);
    NewestContains(am, s);
    GrowthKeepsLasting(k, am, h, s, GetSnapshot(s, g, ok).value, g);
  }

  lemma TailKeepsLasting(k: int, am: Automerge, h: NodeId, s: State, g: Gid, ok: bool)
    requires Lasting(k, am, h, s) && GetOps(am, s, g, ok).Some?
    ensures Lasting(k, am, h, GetOps(am, s, g, ok).value)
  {
    assert ProcOk(k, am, h, s, s.procs[g]);
    ContainsAll(am, s.log, s.procs[g].pc.base, s.procs[g].pc.atSeq);
    GrowthKeepsLasting(k, am, h, s, GetOps(am, s, g, ok).value, g);
  }

  lemma InstallKeepsLasting(k: int, am: Automerge, h: NodeId, s: State, g: Gid, newCell: CellId)
    requires Lasting(k, am, h, s) && InstallDoc(s, g, newCell).Some?
    ensures Lasting(k, am, h, InstallDoc(s, g, newCell).value)
  {
    assert ProcOk(k, am, h, s, s.procs[g]);
    GrowthKeepsLasting(k, am, h, s, InstallDoc(s, g, newCell).value, g);
  }

  lemma AcquireKeepsLasting(k: int, am: Automerge, h: NodeId, s: State, g: Gid)
    requires Lasting(k, am, h, s) && AcquireLock(s, g).Some?
    ensures Lasting(k, am, h, AcquireLock(s, g).value)
  {
    assert ProcOk(k, am, h, s, s.procs[g]);
    GrowthKeepsLasting(k, am, h, s, AcquireLock(s, g).value, g);
  }

  lemma ApplyKeepsLasting(k: int, am: Automerge, h: NodeId, s: State, g: Gid, r: Resolution)
    requires Lasting(k, am, h, s) && KeepsSent(am, s, g, r) && Apply(am, s, g, r).Some?
    ensures Lasting(k, am, h, Apply(am, s, g, r).value)
  {
    assert ProcOk(k, am, h, s, s.procs[g]);
    var d, payload := s.cells[s.procs[g].pc.cell].doc, s.procs[g].job.payload;
    var merged := ApplyChange(am, d, payload, r);
    assert if Decodes(am, payload) then merged.Some? && d + Changes(am, payload) <= merged.value else merged.None?;
    GrowthKeepsLasting(k, am, h, s, Apply(am, s, g, r).value, g);
  }

  /** The log grows through the map's docState, which has the change already. */
  lemma AppendKeepsLasting(k: int, am: Automerge, h: NodeId, s: State, g: Gid, ok: bool)
    requires Lasting(k, am, h, s) && Append(am, s, g, ok).Some?
    ensures Lasting(k, am, h, Append(am, s, g, ok).value)
  {
    var s' := Append(am, s, g, ok).value;
    assert ProcOk(k, am, h, s, s.procs[g]);
    if ok {
      FoldSnoc(am, s.log, OpOf(s.procs[g], |s.log| + 1));
      assert s'.log[..|s'.log|] == s'.log;
    }
    GrowthKeepsLasting(k, am, h, s, s', g);
  }

  lemma EmitKeepsLasting(k: int, am: Automerge, h: NodeId, s: State, g: Gid)
    requires Lasting(k, am, h, s) && Emit(s, g).Some?
    ensures Lasting(k, am, h, Emit(s, g).value)
  {
    assert ProcOk(k, am, h, s, s.procs[g]);
    GrowthKeepsLasting(k, am, h, s, Emit(s, g).value, g);
  }

  lemma SaveKeepsLasting(cfg: Config, h: NodeId, s: State, g: Gid, ok: bool)
    requires cfg.am.Laws() && Lasting(cfg.snapshotEvery, cfg.am, h, s) && Save(cfg, s, g, ok).Some?
    ensures Lasting(cfg.snapshotEvery, cfg.am, h, Save(cfg, s, g, ok).value)
  {
    assert ProcOk(cfg.snapshotEvery, cfg.am, h, s, s.procs[g]);
    GrowthKeepsLasting(cfg.snapshotEvery, cfg.am, h, s, Save(cfg, s, g, ok).value, g);
  }

  lemma PublishKeepsLasting(k: int, am: Automerge, h: NodeId, s: State, g: Gid)
    requires Lasting(k, am, h, s) && Publish(s, g).Some?
    ensures Lasting(k, am, h, Publish(s, g).value)
  {
    assert ProcOk(k, am, h, s, s.procs[g]);
    GrowthKeepsLasting(k, am, h, s, Publish(s, g).value, g);
  }

  lemma ReturnKeepsLasting(k: int, am: Automerge, h: NodeId, s: State, g: Gid)
    requires Lasting(k, am, h, s) && Return(s, g).Some?
    ensures Lasting(k, am, h, Return(s, g).value)
  {
    assert ProcOk(k, am, h, s, s.procs[g]);
    GrowthKeepsLasting(k, am, h, s, Return(s, g).value, g);
  }

  lemma GetLatestKeepsLasting(k: int, am: Automerge, h: NodeId, s: State, g: Gid)
    requires Lasting(k, am, h, s) && GetLatest(s, g).Some?
    ensures Lasting(k, am, h, GetLatest(s, g).value)
  {
    assert ProcOk(k, am, h, s, s.procs[g]);
    assert s.log[..|s.log|] == s.log;
    GrowthKeepsLasting(k, am, h, s, GetLatest(s, g).value, g);
  }

  lemma SaveManualKeepsLasting(k: int, am: Automerge, h: NodeId, s: State, g: Gid, ok: bool)
    requires am.Laws() && Lasting(k, am, h, s) && SaveManual(am, s, g, ok).Some?
    ensures Lasting(k, am, h, SaveManual(am, s, g, ok).value)
  {
    assert ProcOk(k, am, h, s, s.procs[g]);
    GrowthKeepsLasting(k, am, h, s, SaveManual(am, s, g, ok).value, g);
  }

  lemma ExportKeepsLasting(k: int, am: Automerge, h: NodeId, s: State, g: Gid)
    requires Lasting(k, am, h, s) && ExportDoc(s, g).Some?
    ensures Lasting(k, am, h, ExportDoc(s, g).value)
  {
    assert ProcOk(k, am, h, s, s.procs[g]);
    GrowthKeepsLasting(k, am, h, s, ExportDoc(s, g).value, g);
  }

  lemma CrashKeepsLasting(k: int, am: Automerge, h: NodeId, s: State)
    requires Lasting(k, am, h, s)
    ensures Lasting(k, am, h, Crash(s, h))
  {
  }

  /** No hazard is crossed: whoever is in flight has nothing of the old life to write. */
  lemma DeleteKeepsLasting(k: int, am: Automerge, h: NodeId, s: State)
    requires Lasting(k, am, h, s) && Crosses(k, {}, s, DoDelete)
    ensures Lasting(k, am, h, Delete(s))
  {
    var s' := Delete(s);
    forall g | g in s'.procs ensures ProcOk(k, am, h, s', s'.procs[g]) {
      assert ProcOk(k, am, h, s, s.procs[g]) && DeleteHazard(k, s.procs[g]).None?;
    }
  }

  /** No hazard is crossed: nobody will write through the dropped docState, or install an old load. */
  lemma ForgetKeepsLasting(k: int, am: Automerge, h: NodeId, s: State)
    requires Lasting(k, am, h, s) && Crosses(k, {}, s, DoForget(h))
    ensures Lasting(k, am, h, Forget(s, h))
  {
    var s' := Forget(s, h);
    forall g | g in s'.procs ensures ProcOk(k, am, h, s', s'.procs[g]) {
      assert ProcOk(k, am, h, s, s.procs[g]) && ForgetHazard(s.procs[g]).None?;
    }
  }

  lemma StepKeepsLasting(cfg: Config, h: NodeId, s: State, a: Action)
    requires cfg.am.Laws() && Lasting(cfg.snapshotEvery, cfg.am, h, s) && CrossStep(cfg, h, {})(s, a).Some?
    ensures Lasting(cfg.snapshotEvery, cfg.am, h, CrossStep(cfg, h, {})(s, a).value)
  {
    var k, am := cfg.snapshotEvery, cfg.am;
    match a
    case DoStart(g, _, job) => StartKeepsLasting(k, am, h, s, g, job);
    case DoLookup(g) => LookUpKeepsLasting(k, am, h, s, g);
    case DoReadSnapshot(g, ok) => ReadKeepsLasting(k, am, h, s, g, ok);
    case DoReadOps(g, ok) => TailKeepsLasting(k, am, h, s, g, ok);
    case DoInstall(g, newCell) => InstallKeepsLasting(k, am, h, s, g, newCell);
    case DoAcquire(g) => AcquireKeepsLasting(k, am, h, s, g);
    case DoApply(g, r) => ApplyKeepsLasting(k, am, h, s, g, r);
    case DoAppend(g, ok) => AppendKeepsLasting(k, am, h, s, g, ok);
    case DoEmit(g) => EmitKeepsLasting(k, am, h, s, g);
    case DoSave(g, ok) => SaveKeepsLasting(cfg, h, s, g, ok);
    case DoPublish(g) => PublishKeepsLasting(k, am, h, s, g);
    case DoReturn(g) => ReturnKeepsLasting(k, am, h, s, g);
    case DoLatest(g) => GetLatestKeepsLasting(k, am, h, s, g);
    case DoSaveManual(g, ok) => SaveManualKeepsLasting(k, am, h, s, g, ok);
    case DoExport(g) => ExportKeepsLasting(k, am, h, s, g);
    case DoCrash(_) => CrashKeepsLasting(k, am, h, s);
    case DoDelete => DeleteKeepsLasting(k, am, h, s);
    case DoForget(_) => ForgetKeepsLasting(k, am, h, s);
  }

  // ----- what every run guarantees -------------------------------------------------------------------------------

  /** The cached document, and the document a restarted node loads, have every change of the log. */
  ghost predicate NoLoss(am: Automerge, h: NodeId, s: State) {
    && Loaded(am, s).Some? && Fold(am, s.log) <= Loaded(am, s).value
    && (h in s.entry ==> Cached(h, s) && Fold(am, s.log) <= CachedDoc(h, s))
  }

  lemma LastingLosesNothing(k: int, am: Automerge, h: NodeId, s: State)
    requires Lasting(k, am, h, s)
    ensures NoLoss(am, h, s)
  {
    NewestContains(am, s);
    ContainsAll(am, s.log, SnapState(s.snaps), SnapSeq(s.snaps));
  }

  /** Whatever else is in flight across the two steps of a delete, however many there are and however they interleave
      with submits, loads, snapshots, exports and crashes: when they cross no hazard, and the resolver's replies keep
      what it was sent, nothing is lost. */
  lemma NothingIsLost(cfg: Config, h: NodeId, acts: seq<Action>, s: State)
    requires cfg.am.Laws() && Exec(CrossStep(cfg, h, {}), INIT, acts) == Some(s)
    ensures NoLoss(cfg.am, h, s)
  {
    var k := cfg.snapshotEvery;
    forall m: State, a: Action | Lasting(k, cfg.am, h, m) && CrossStep(cfg, h, {})(m, a).Some?
      ensures Lasting(k, cfg.am, h, CrossStep(cfg, h, {})(m, a).value)
    {
      StepKeepsLasting(cfg, h, m, a);
    }
    Invariance(CrossStep(cfg, h, {}), (m: State) => Lasting(k, cfg.am, h, m), INIT, acts);
    LastingLosesNothing(k, cfg.am, h, s);
  }
}
