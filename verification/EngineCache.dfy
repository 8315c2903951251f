/** The cached document against the log, for a document served by one node `h`: the cache, the concurrent loaders and
    the snapshots all stand for the whole log, through crashes at any step. */
module EngineCache {
  import opened Core
  import opened Crdt
  import opened Runs
  import opened EngineProtocol
  import opened EngineDurability

  /** The resolver did not replace the document. */
  predicate Automatic(am: Automerge, r: Resolution) {
    r.Replied? ==> am.load(r.state).None?
  }

  /** A delete runs while no request on the document is in flight, and none starts before the cache is dropped.
      The cache is dropped only as the second half of a delete. */
  ghost predicate Undisturbed(s: State, a: Action) {
    && (a.DoDelete? ==> forall g :: g in s.procs ==> Finished(s.procs[g].pc))
    && (a.DoStart? ==> !s.deleting)
    && (a.DoForget? ==> s.deleting)
  }

  ghost predicate AtHome(am: Automerge, h: NodeId, s: State, a: Action) {
    && Undisturbed(s, a)
    && (a.DoStart? || a.DoCrash? || a.DoForget? ==> a.node == h)
    && (a.DoApply? ==> Automatic(am, a.r))
  }

  ghost function HomeStep(cfg: Config, h: NodeId): (State, Action) -> Option<State> {
    (s, a) => if AtHome(cfg.am, h, s, a) then Step(cfg, s, a) else None
  }

  // ----- the invariant -------------------------------------------------------------------------------------------

  predicate HasCell(pc: Pc) {
    pc.Acquire? || Holding(pc)
  }

  ghost predicate Cached(h: NodeId, s: State) {
    h in s.entry && s.entry[h] in s.cells
  }

  ghost function CachedDoc(h: NodeId, s: State): Doc
    requires Cached(h, s)
  {
    s.cells[s.entry[h]].doc
  }

  /** Every goroutine that holds a docState pointer holds the one in the map, and at most one holds its lock. */
  ghost predicate Pointers(h: NodeId, s: State) {
    && (h in s.entry ==> s.entry[h] in s.cells)
    && (forall g :: g in s.procs ==> s.procs[g].node == h)
    && (forall g :: g in s.procs && HasCell(s.procs[g].pc) ==> h in s.entry && s.procs[g].pc.cell == s.entry[h])
    && (forall g :: g in s.procs && Holding(s.procs[g].pc) ==> s.cells[s.entry[h]].owner == Some(g))
    && (Cached(h, s) && s.cells[s.entry[h]].owner.Some? ==>
          s.cells[s.entry[h]].owner.value in s.procs && Holding(s.procs[s.cells[s.entry[h]].owner.value].pc))
    && (s.deleting ==> forall g :: g !in s.procs)
  }

  /** The lock holder's number is the log's last. */
  ghost predicate Current(s: State) {
    && (forall g :: g in s.procs && Committing(s.procs[g].pc) ==> s.procs[g].pc.seqNo == |s.log|)
    && (forall g :: g in s.procs && s.procs[g].pc.Sized? ==> s.procs[g].pc.latest == |s.log|)
  }

  /** The changes merged into the cache by a submit whose append has not happened yet. */
  ghost function InFlight(am: Automerge, h: NodeId, s: State): set<Change> {
    if Cached(h, s) && s.cells[s.entry[h]].owner.Some? && s.cells[s.entry[h]].owner.value in s.procs then
      var p := s.procs[s.cells[s.entry[h]].owner.value];
      if p.pc.Applied? && p.job.Submit? then Changes(am, p.job.payload) else {}
    else {}
  }

  ghost predicate Agrees(am: Automerge, h: NodeId, s: State) {
    && AllDecode(am, s.log)
    && (forall g :: g in s.procs && s.procs[g].pc.Applied? ==>
                      s.procs[g].job.Submit? && Decodes(am, s.procs[g].job.payload))
    && (Cached(h, s) ==> Fold(am, s.log) + InFlight(am, h, s) <= CachedDoc(h, s))
    && (Cached(h, s) && !s.deleting ==> CachedDoc(h, s) <= Fold(am, s.log) + s.refused + InFlight(am, h, s))
  }

  /** `bytes` stands for the first n entries, up to payloads whose append was refused. */
  ghost predicate StandsFor(am: Automerge, s: State, bytes: Bytes, n: nat) {
    && n <= |s.log|
    && Base(am, bytes).Some?
    && Fold(am, s.log[..n]) <= Base(am, bytes).value <= Fold(am, s.log[..n]) + s.refused
  }

  ghost predicate Snapshots(am: Automerge, s: State) {
    forall n :: n in s.snaps ==> StandsFor(am, s, s.snaps[n], n)
  }

  /** While the map has no entry, whatever a loader has read is still the whole log. */
  ghost predicate Loaders(am: Automerge, h: NodeId, s: State) {
    && (forall g :: g in s.procs && s.procs[g].pc.ReadOps? ==>
                      StandsFor(am, s, s.procs[g].pc.base, s.procs[g].pc.atSeq))
    && (forall g :: g in s.procs && s.procs[g].pc.Install? && h !in s.entry ==>
                      Fold(am, s.log) <= s.procs[g].pc.doc <= Fold(am, s.log) + s.refused)
  }

  ghost predicate Home(am: Automerge, h: NodeId, s: State) {
    Pointers(h, s) && Current(s) && Agrees(am, h, s) && Snapshots(am, s) && Loaders(am, h, s)
  }

  // ----- every step keeps it -------------------------------------------------------------------------------------

  lemma StandsForWhole(am: Automerge, s: State, bytes: Bytes, n: nat)
    requires StandsFor(am, s, bytes, n) && AllDecode(am, s.log)
    ensures Rehydrated(am, bytes, Since(s.log, n)).Some?
    ensures Fold(am, s.log) <= Rehydrated(am, bytes, Since(s.log, n)).value <= Fold(am, s.log) + s.refused
  {
    SnapshotPlusTail(am, s.log, n, bytes, s.refused);
  }

  lemma LoadedWhole(am: Automerge, s: State)
    requires Snapshots(am, s) && AllDecode(am, s.log)
    ensures StandsFor(am, s, SnapState(s.snaps), SnapSeq(s.snaps))
    ensures Loaded(am, s).Some?
    ensures Fold(am, s.log) <= Loaded(am, s).value <= Fold(am, s.log) + s.refused
  {
    if s.snaps == map[] {
      assert s.log[..0] == [];
    }
    StandsForWhole(am, s, SnapState(s.snaps), SnapSeq(s.snaps));
  }

  lemma StandsForKept(am: Automerge, s: State, s': State, bytes: Bytes, n: nat)
    requires StandsFor(am, s, bytes, n) && s.log <= s'.log && s.refused <= s'.refused
    ensures StandsFor(am, s', bytes, n)
  {
    assert s'.log[..n] == s.log[..n];
  }

  /** The place goroutine p has come to is consistent with what is shared. */
  ghost predicate Arrived(am: Automerge, h: NodeId, s: State, p: Proc) {
    && p.node == h && !Holding(p.pc)
    && (p.pc.Acquire? ==> h in s.entry && p.pc.cell == s.entry[h])
    && (p.pc.ReadOps? ==> StandsFor(am, s, p.pc.base, p.pc.atSeq))
    && (p.pc.Install? && h !in s.entry ==> Fold(am, s.log) <= p.pc.doc <= Fold(am, s.log) + s.refused)
  }

  /** A goroutine without the lock moves, to a place without the lock: nothing in flight changes. */
  lemma MoveKeepsAgrees(am: Automerge, h: NodeId, s: State, s': State, g: Gid, p: Proc)
    requires Agrees(am, h, s) && !Holding(p.pc) && (g in s.procs ==> !Holding(s.procs[g].pc))
    requires s' == s.(procs := s.procs[g := p])
    ensures Agrees(am, h, s')
  {
    assert InFlight(am, h, s') == InFlight(am, h, s);
  }

  lemma MoveKeepsHome(am: Automerge, h: NodeId, s: State, s': State, g: Gid, p: Proc)
    requires Home(am, h, s) && !s.deleting && Arrived(am, h, s, p)
    requires g in s.procs ==> !Holding(s.procs[g].pc)
    requires s' == s.(procs := s.procs[g := p])
    ensures Home(am, h, s')
  {
    MoveKeepsAgrees(am, h, s, s', g, p);
    MoveKeepsReaders(am, h, s, s', g, p);
    assert Current(s');
  }

  lemma MoveKeepsReaders(am: Automerge, h: NodeId, s: State, s': State, g: Gid, p: Proc)
    requires Snapshots(am, s) && Loaders(am, h, s) && Arrived(am, h, s, p) && s' == s.(procs := s.procs[g := p])
    ensures Snapshots(am, s') && Loaders(am, h, s')
  {
    assert forall bytes, n :: StandsFor(am, s, bytes, n) ==> StandsFor(am, s', bytes, n);
  }

  lemma StartKeepsHome(cfg: Config, h: NodeId, s: State, a: Action)
    requires Home(cfg.am, h, s) && AtHome(cfg.am, h, s, a) && a.DoStart? && Step(cfg, s, a).Some?
    ensures Home(cfg.am, h, Step(cfg, s, a).value)
  {
    var s' := Step(cfg, s, a).value;
    MoveKeepsHome(cfg.am, h, s, s', a.g, s'.procs[a.g]);
  }

  lemma LookUpKeepsHome(am: Automerge, h: NodeId, s: State, g: Gid)
    requires Home(am, h, s) && LookUp(s, g).Some?
    ensures Home(am, h, LookUp(s, g).value)
  {
    var s' := LookUp(s, g).value;
    MoveKeepsHome(am, h, s, s', g, s'.procs[g]);
  }

  lemma GetSnapshotKeepsHome(am: Automerge, h: NodeId, s: State, g: Gid, ok: bool)
    requires Home(am, h, s) && GetSnapshot(s, g, ok).Some?
    ensures Home(am, h, GetSnapshot(s, g, ok).value)
  {
    var s' := GetSnapshot(s, g, ok).value;
    LoadedWhole(am, s);
    MoveKeepsHome(am, h, s, s', g, s'.procs[g]);
  }

  lemma GetOpsKeepsHome(am: Automerge, h: NodeId, s: State, g: Gid, ok: bool)
    requires Home(am, h, s) && GetOps(am, s, g, ok).Some?
    ensures Home(am, h, GetOps(am, s, g, ok).value)
  {
    var s' := GetOps(am, s, g, ok).value;
    StandsForWhole(am, s, s.procs[g].pc.base, s.procs[g].pc.atSeq);
    MoveKeepsHome(am, h, s, s', g, s'.procs[g]);
  }

  lemma NewEntryKeepsPointers(h: NodeId, s: State, s': State, g: Gid, newCell: CellId)
    requires Pointers(h, s) && h !in s.entry && InstallDoc(s, g, newCell) == Some(s')
    ensures Pointers(h, s')
  {
  }

  lemma NewEntryKeepsReaders(am: Automerge, h: NodeId, s: State, s': State, g: Gid, newCell: CellId)
    requires Snapshots(am, s) && Loaders(am, h, s) && InstallDoc(s, g, newCell) == Some(s')
    requires g in s.procs ==> s.procs[g].node == h
    ensures Snapshots(am, s') && Loaders(am, h, s')
  {
    forall n | n in s'.snaps ensures StandsFor(am, s', s'.snaps[n], n) {
      StandsForKept(am, s, s', s.snaps[n], n);
    }
    forall x | x in s'.procs && s'.procs[x].pc.ReadOps?
      ensures StandsFor(am, s', s'.procs[x].pc.base, s'.procs[x].pc.atSeq)
    {
      StandsForKept(am, s, s', s.procs[x].pc.base, s.procs[x].pc.atSeq);
    }
  }

  lemma NewEntryAgrees(am: Automerge, h: NodeId, s: State, s': State, g: Gid, newCell: CellId)
    requires Pointers(h, s) && Agrees(am, h, s) && Loaders(am, h, s) && h !in s.entry
             && InstallDoc(s, g, newCell) == Some(s')
    ensures Agrees(am, h, s')
  {
    assert InFlight(am, h, s') == {};
  }

  /** Installing: with an entry present the loaded document is dropped, without one it is the whole log. */
  lemma InstallKeepsHome(am: Automerge, h: NodeId, s: State, g: Gid, newCell: CellId)
    requires Home(am, h, s) && InstallDoc(s, g, newCell).Some?
    ensures Home(am, h, InstallDoc(s, g, newCell).value)
  {
    var s' := InstallDoc(s, g, newCell).value;
    if h in s.entry {
      MoveKeepsHome(am, h, s, s', g, s'.procs[g]);
    } else {
      NewEntryKeepsPointers(h, s, s', g, newCell);
      NewEntryAgrees(am, h, s, s', g, newCell);
      NewEntryKeepsReaders(am, h, s, s', g, newCell);
    }
  }

  lemma OnlyHolder(h: NodeId, s: State, g: Gid)
    requires Pointers(h, s) && g in s.procs && Holding(s.procs[g].pc)
    ensures s.procs[g].pc.cell == s.entry[h] && Cached(h, s) && s.cells[s.entry[h]].owner == Some(g)
    ensures forall g' :: g' in s.procs && Holding(s.procs[g'].pc) ==> g' == g
  {
  }

  /** Only docState c changed; it holds d and its lock is with `owner`. */
  ghost predicate OneCell(s: State, s': State, c: CellId, d: Doc, owner: Option<Gid>) {
    && c in s'.cells && s'.cells[c].doc == d && s'.cells[c].owner == owner
    && s'.cells.Keys == s.cells.Keys + {c}
    && forall x :: x in s.cells && x != c ==> s'.cells[x] == s.cells[x]
  }

  /** The lock changes hands or its holder moves on: pointers and lock stay consistent. */
  lemma HolderKeepsPointers(h: NodeId, s: State, s': State, g: Gid, p: Proc, d: Doc)
    requires Pointers(h, s) && Cached(h, s) && g in s.procs && HasCell(s.procs[g].pc)
    requires Holding(s.procs[g].pc) || s.cells[s.entry[h]].owner.None?
    requires s'.procs == s.procs[g := p] && s'.entry == s.entry && s'.deleting == s.deleting
    requires OneCell(s, s', s.entry[h], d, if Holding(p.pc) then Some(g) else None)
    requires p.node == h && !p.pc.Acquire? && (Holding(p.pc) ==> p.pc.cell == s.entry[h])
    ensures Pointers(h, s')
  {
  }

  /** Nobody but the holder has a number, so a new last entry or a new holder position leaves the others alone. */
  lemma HolderKeepsCurrent(h: NodeId, s: State, s': State, g: Gid, p: Proc)
    requires Pointers(h, s) && Cached(h, s) && g in s.procs && HasCell(s.procs[g].pc)
    requires Holding(s.procs[g].pc) || s.cells[s.entry[h]].owner.None?
    requires s'.procs == s.procs[g := p]
    requires Committing(p.pc) ==> p.pc.seqNo == |s'.log|
    requires p.pc.Sized? ==> p.pc.latest == |s'.log|
    ensures Current(s')
  {
  }

  /** The log and the refused payloads only grow, and a new snapshot stands for the log so far. */
  lemma HolderKeepsReaders(am: Automerge, h: NodeId, s: State, s': State, g: Gid, p: Proc)
    requires Snapshots(am, s) && Loaders(am, h, s) && h in s.entry && h in s'.entry
    requires s'.procs == s.procs[g := p] && !p.pc.ReadOps?
    requires s.log <= s'.log && s.refused <= s'.refused
    requires forall n :: n in s'.snaps && (n !in s.snaps || s'.snaps[n] != s.snaps[n]) ==>
                           StandsFor(am, s', s'.snaps[n], n)
    ensures Snapshots(am, s') && Loaders(am, h, s')
  {
    forall n | n in s'.snaps
      ensures StandsFor(am, s', s'.snaps[n], n)
    {
      if n in s.snaps && s'.snaps[n] == s.snaps[n] { StandsForKept(am, s, s', s.snaps[n], n); }
    }
    forall g' | g' in s'.procs && s'.procs[g'].pc.ReadOps?
      ensures StandsFor(am, s', s'.procs[g'].pc.base, s'.procs[g'].pc.atSeq)
    {
      StandsForKept(am, s, s', s.procs[g'].pc.base, s.procs[g'].pc.atSeq);
    }
  }

  /** The changes that are merged but not appended when the lock holder is p. */
  function Unlogged(am: Automerge, p: Proc): set<Change> {
    if p.pc.Applied? && p.job.Submit? then Changes(am, p.job.payload) else {}
  }

  /** One lemma for every step of a lock holder: it moves to p, leaves document d in the cell, and may extend the log,
      the refused payloads and the snapshots. */
  lemma HolderKeepsHome(am: Automerge, h: NodeId, s: State, s': State, g: Gid, p: Proc, d: Doc)
    requires Home(am, h, s) && g in s.procs && HasCell(s.procs[g].pc)
    requires Holding(s.procs[g].pc) || s.cells[s.entry[h]].owner.None?
    requires s'.procs == s.procs[g := p] && s'.entry == s.entry && s'.deleting == s.deleting
    requires OneCell(s, s', s.entry[h], d, if Holding(p.pc) then Some(g) else None)
    requires p.node == h && !p.pc.Acquire? && !p.pc.ReadOps? && (Holding(p.pc) ==> p.pc.cell == s.entry[h])
    requires Committing(p.pc) ==> p.pc.seqNo == |s'.log|
    requires p.pc.Sized? ==> p.pc.latest == |s'.log|
    requires s.log <= s'.log && s.refused <= s'.refused
    requires AllDecode(am, s'.log) && (p.pc.Applied? ==> p.job.Submit? && Decodes(am, p.job.payload))
    requires Fold(am, s'.log) + Unlogged(am, p) <= d <= Fold(am, s'.log) + s'.refused + Unlogged(am, p)
    requires forall n :: n in s'.snaps && (n !in s.snaps || s'.snaps[n] != s.snaps[n]) ==>
                           StandsFor(am, s', s'.snaps[n], n)
    ensures Home(am, h, s')
  {
    HolderKeepsPointers(h, s, s', g, p, d);
    HolderKeepsCurrent(h, s, s', g, p);
    HolderKeepsReaders(am, h, s, s', g, p);
    assert Agrees(am, h, s') by {
      assert InFlight(am, h, s') == Unlogged(am, p);
      assert forall g' :: g' in s'.procs && s'.procs[g'].pc.Applied? ==> g' == g;
    }
  }

  lemma AcquireKeepsHome(am: Automerge, h: NodeId, s: State, g: Gid)
    requires Home(am, h, s) && AcquireLock(s, g).Some?
    ensures Home(am, h, AcquireLock(s, g).value)
  {
    var s' := AcquireLock(s, g).value;
    HolderKeepsHome(am, h, s, s', g, s'.procs[g], CachedDoc(h, s));
  }

  lemma ApplyKeepsHome(am: Automerge, h: NodeId, s: State, g: Gid, r: Resolution)
    requires Home(am, h, s) && Automatic(am, r) && Apply(am, s, g, r).Some?
    ensures Home(am, h, Apply(am, s, g, r).value)
  {
    var s' := Apply(am, s, g, r).value;
    OnlyHolder(h, s, g);
    var d := CachedDoc(h, s);
    var payload := s.procs[g].job.payload;
    assert InFlight(am, h, s) == {};
    if Decodes(am, payload) {
      assert ApplyChange(am, d, payload, r) == Some(d + Changes(am, payload));
      HolderKeepsHome(am, h, s, s', g, s'.procs[g], d + Changes(am, payload));
    } else {
      HolderKeepsHome(am, h, s, s', g, s'.procs[g], d);
    }
  }

  lemma AppendKeepsHome(am: Automerge, h: NodeId, s: State, g: Gid, ok: bool)
    requires Home(am, h, s) && Append(am, s, g, ok).Some?
    ensures Home(am, h, Append(am, s, g, ok).value)
  {
    var s' := Append(am, s, g, ok).value;
    OnlyHolder(h, s, g);
    assert InFlight(am, h, s) == Changes(am, s.procs[g].job.payload);
    if ok {
      FoldSnoc(am, s.log, OpOf(s.procs[g], |s.log| + 1));
    }
    HolderKeepsHome(am, h, s, s', g, s'.procs[g], CachedDoc(h, s));
  }

  lemma EmitKeepsHome(am: Automerge, h: NodeId, s: State, g: Gid)
    requires Home(am, h, s) && Emit(s, g).Some?
    ensures Home(am, h, Emit(s, g).value)
  {
    var s' := Emit(s, g).value;
    OnlyHolder(h, s, g);
    HolderKeepsHome(am, h, s, s', g, s'.procs[g], CachedDoc(h, s));
  }

  /** A snapshot written by the lock holder stands for the log up to its number. */
  lemma SavedStandsFor(am: Automerge, h: NodeId, s: State, s': State, g: Gid, n: nat)
    requires am.Laws() && Home(am, h, s) && g in s.procs && Holding(s.procs[g].pc) && !s.procs[g].pc.Applied?
    requires n == |s.log| && s'.log == s.log && s'.refused == s.refused
    ensures StandsFor(am, s', am.save(CachedDoc(h, s)), n)
  {
    OnlyHolder(h, s, g);
    assert s.log[..n] == s.log;
    assert InFlight(am, h, s) == {};
  }

  lemma SaveKeepsHome(cfg: Config, h: NodeId, s: State, g: Gid, ok: bool)
    requires cfg.am.Laws() && Home(cfg.am, h, s) && Save(cfg, s, g, ok).Some?
    ensures Home(cfg.am, h, Save(cfg, s, g, ok).value)
  {
    var s' := Save(cfg, s, g, ok).value;
    OnlyHolder(h, s, g);
    SavedStandsFor(cfg.am, h, s, s', g, |s.log|);
    HolderKeepsHome(cfg.am, h, s, s', g, s'.procs[g], CachedDoc(h, s));
  }

  lemma PublishKeepsHome(am: Automerge, h: NodeId, s: State, g: Gid)
    requires Home(am, h, s) && Publish(s, g).Some?
    ensures Home(am, h, Publish(s, g).value)
  {
    var s' := Publish(s, g).value;
    OnlyHolder(h, s, g);
    HolderKeepsHome(am, h, s, s', g, s'.procs[g], CachedDoc(h, s));
  }

  lemma ReturnKeepsHome(am: Automerge, h: NodeId, s: State, g: Gid)
    requires Home(am, h, s) && Return(s, g).Some?
    ensures Home(am, h, Return(s, g).value)
  {
    var s' := Return(s, g).value;
    OnlyHolder(h, s, g);
    HolderKeepsHome(am, h, s, s', g, s'.procs[g], CachedDoc(h, s));
  }

  lemma GetLatestKeepsHome(am: Automerge, h: NodeId, s: State, g: Gid)
    requires Home(am, h, s) && GetLatest(s, g).Some?
    ensures Home(am, h, GetLatest(s, g).value)
  {
    var s' := GetLatest(s, g).value;
    OnlyHolder(h, s, g);
    HolderKeepsHome(am, h, s, s', g, s'.procs[g], CachedDoc(h, s));
  }

  lemma SaveManualKeepsHome(am: Automerge, h: NodeId, s: State, g: Gid, ok: bool)
    requires am.Laws() && Home(am, h, s) && SaveManual(am, s, g, ok).Some?
    ensures Home(am, h, SaveManual(am, s, g, ok).value)
  {
    var s' := SaveManual(am, s, g, ok).value;
    OnlyHolder(h, s, g);
    SavedStandsFor(am, h, s, s', g, |s.log|);
    HolderKeepsHome(am, h, s, s', g, s'.procs[g], CachedDoc(h, s));
  }

  lemma ExportKeepsHome(am: Automerge, h: NodeId, s: State, g: Gid)
    requires Home(am, h, s) && ExportDoc(s, g).Some?
    ensures Home(am, h, ExportDoc(s, g).value)
  {
    var s' := ExportDoc(s, g).value;
    OnlyHolder(h, s, g);
    HolderKeepsHome(am, h, s, s', g, s'.procs[g], CachedDoc(h, s));
  }

  lemma CrashKeepsHome(am: Automerge, h: NodeId, s: State)
    requires Home(am, h, s)
    ensures Home(am, h, Crash(s, h))
  {
    var s' := Crash(s, h);
    assert forall g :: g !in s'.procs;
    forall n | n in s'.snaps
      ensures StandsFor(am, s', s'.snaps[n], n)
    {
      StandsForKept(am, s, s', s.snaps[n], n);
    }
  }

  lemma DeleteKeepsHome(am: Automerge, h: NodeId, s: State)
    requires Home(am, h, s) && Undisturbed(s, DoDelete)
    ensures Home(am, h, Delete(s))
  {
    assert forall g :: g !in Delete(s).procs;
  }

  lemma ForgetKeepsHome(am: Automerge, h: NodeId, s: State)
    requires Home(am, h, s) && s.deleting
    ensures Home(am, h, Forget(s, h))
  {
    var s' := Forget(s, h);
    forall n | n in s'.snaps
      ensures StandsFor(am, s', s'.snaps[n], n)
    {
      StandsForKept(am, s, s', s.snaps[n], n);
    }
  }

  lemma LoadingKeepsHome(cfg: Config, h: NodeId, s: State, a: Action)
    requires Home(cfg.am, h, s) && AtHome(cfg.am, h, s, a) && Step(cfg, s, a).Some?
    requires a.DoStart? || a.DoLookup? || a.DoReadSnapshot? || a.DoReadOps? || a.DoInstall?
    ensures Home(cfg.am, h, Step(cfg, s, a).value)
  {
    match a {
      case DoStart(_, _, _) => StartKeepsHome(cfg, h, s, a);
      case DoLookup(g) => LookUpKeepsHome(cfg.am, h, s, g);
      case DoReadSnapshot(g, ok) => GetSnapshotKeepsHome(cfg.am, h, s, g, ok);
      case DoReadOps(g, ok) => GetOpsKeepsHome(cfg.am, h, s, g, ok);
      case DoInstall(g, newCell) => InstallKeepsHome(cfg.am, h, s, g, newCell);
    }
  }

  lemma CommittingKeepsHome(cfg: Config, h: NodeId, s: State, a: Action)
    requires cfg.am.Laws() && Home(cfg.am, h, s) && AtHome(cfg.am, h, s, a) && Step(cfg, s, a).Some?
    requires a.DoAcquire? || a.DoApply? || a.DoAppend? || a.DoEmit? || a.DoSave? || a.DoPublish? || a.DoReturn?
    ensures Home(cfg.am, h, Step(cfg, s, a).value)
  {
    match a {
      case DoAcquire(g) => AcquireKeepsHome(cfg.am, h, s, g);
      case DoApply(g, r) => ApplyKeepsHome(cfg.am, h, s, g, r);
      case DoAppend(g, ok) => AppendKeepsHome(cfg.am, h, s, g, ok);
      case DoEmit(g) => EmitKeepsHome(cfg.am, h, s, g);
      case DoSave(g, ok) => SaveKeepsHome(cfg, h, s, g, ok);
      case DoPublish(g) => PublishKeepsHome(cfg.am, h, s, g);
      case DoReturn(g) => ReturnKeepsHome(cfg.am, h, s, g);
    }
  }

  lemma ServingKeepsHome(cfg: Config, h: NodeId, s: State, a: Action)
    requires cfg.am.Laws() && Home(cfg.am, h, s) && Step(cfg, s, a).Some?
    requires a.DoLatest? || a.DoSaveManual? || a.DoExport?
    ensures Home(cfg.am, h, Step(cfg, s, a).value)
  {
    match a {
      case DoLatest(g) => GetLatestKeepsHome(cfg.am, h, s, g);
      case DoSaveManual(g, ok) => SaveManualKeepsHome(cfg.am, h, s, g, ok);
      case DoExport(g) => ExportKeepsHome(cfg.am, h, s, g);
    }
  }

  lemma AdminKeepsHome(cfg: Config, h: NodeId, s: State, a: Action)
    requires Home(cfg.am, h, s) && AtHome(cfg.am, h, s, a) && (a.DoCrash? || a.DoDelete? || a.DoForget?)
    ensures Home(cfg.am, h, Step(cfg, s, a).value)
  {
    match a {
      case DoCrash(_) => CrashKeepsHome(cfg.am, h, s);
      case DoDelete => DeleteKeepsHome(cfg.am, h, s);
      case DoForget(_) => ForgetKeepsHome(cfg.am, h, s);
    }
  }

  lemma StepKeepsHome(cfg: Config, h: NodeId, s: State, a: Action)
    requires cfg.am.Laws() && Home(cfg.am, h, s) && HomeStep(cfg, h)(s, a).Some?
    ensures Home(cfg.am, h, HomeStep(cfg, h)(s, a).value)
  {
    if a.DoStart? || a.DoLookup? || a.DoReadSnapshot? || a.DoReadOps? || a.DoInstall? {
      LoadingKeepsHome(cfg, h, s, a);
    } else if a.DoLatest? || a.DoSaveManual? || a.DoExport? {
      ServingKeepsHome(cfg, h, s, a);
    } else if a.DoCrash? || a.DoDelete? || a.DoForget? {
      AdminKeepsHome(cfg, h, s, a);
    } else {
      CommittingKeepsHome(cfg, h, s, a);
    }
  }

  ghost predicate Safe(am: Automerge, h: NodeId, s: State) {
    Home(am, h, s) && Durable(s)
  }

  lemma CrashKeepsSafe(cfg: Config, h: NodeId, s: State)
    requires Safe(cfg.am, h, s)
    ensures Safe(cfg.am, h, Crash(s, h)) && forall g :: g !in Crash(s, h).procs
  {
    CrashKeepsHome(cfg.am, h, s);
    AdminKeepsDurable(cfg, s, DoCrash(h));
  }

  lemma InitSafe(am: Automerge, h: NodeId)
    ensures Safe(am, h, INIT)
  {
    assert forall g :: g !in INIT.procs;
  }

  lemma ReachableSafe(cfg: Config, h: NodeId, acts: seq<Action>)
    requires cfg.am.Laws()
    ensures Exec(HomeStep(cfg, h), INIT, acts).Some? ==> Safe(cfg.am, h, Exec(HomeStep(cfg, h), INIT, acts).value)
  {
    forall m: State, a: Action | Safe(cfg.am, h, m) && HomeStep(cfg, h)(m, a).Some?
      ensures Safe(cfg.am, h, HomeStep(cfg, h)(m, a).value)
    {
      StepKeepsHome(cfg, h, m, a);
      StepKeepsDurable(cfg, m, a);
    }
    InitSafe(cfg.am, h);
    Invariance(HomeStep(cfg, h), (s: State) => Safe(cfg.am, h, s), INIT, acts);
  }

  // ----- what every run guarantees -------------------------------------------------------------------------------

  /** In every reachable state the cached document contains the fold of the whole log; beyond it, it holds at most
      the payloads whose append was refused and the one not yet appended. Without those it is the fold. */
  lemma CacheAgreesWithLog(cfg: Config, h: NodeId, acts: seq<Action>, s: State)
    requires cfg.am.Laws() && Exec(HomeStep(cfg, h), INIT, acts) == Some(s) && h in s.entry
    ensures Cached(h, s)
    ensures Fold(cfg.am, s.log) <= CachedDoc(h, s)
    ensures !s.deleting ==> CachedDoc(h, s) <= Fold(cfg.am, s.log) + s.refused + InFlight(cfg.am, h, s)
    ensures !s.deleting && s.refused == {} && (forall g :: g in s.procs ==> !s.procs[g].pc.Applied?)
            ==> CachedDoc(h, s) == Fold(cfg.am, s.log)
  {
    ReachableSafe(cfg, h, acts);
  }

  lemma RebuiltFromStore(am: Automerge, s: State)
    requires Snapshots(am, s) && AllDecode(am, s.log) && Logged(s.log, s.acked)
    ensures Loaded(am, s).Some?
    ensures Fold(am, s.log) <= Loaded(am, s).value <= Fold(am, s.log) + s.refused
    ensures forall op :: op in s.acked ==> Changes(am, op.payload) <= Loaded(am, s).value
  {
    LoadedWhole(am, s);
    forall op | op in s.acked
      ensures Changes(am, op.payload) <= Loaded(am, s).value
    {
      FoldHolds(am, s.log, op.seqNo - 1);
    }
  }

  /** Whatever the step at which the node dies, loading the document afterwards succeeds and yields every acked
      change: it is the whole log, up to payloads whose append was refused. Which snapshots were saved does not
      matter. */
  lemma RestartRebuildsEveryAck(cfg: Config, h: NodeId, acts: seq<Action>, s: State)
    requires cfg.am.Laws() && Exec(HomeStep(cfg, h), INIT, acts) == Some(s)
    ensures Loaded(cfg.am, Crash(s, h)).Some?
    ensures Fold(cfg.am, s.log) <= Loaded(cfg.am, Crash(s, h)).value <= Fold(cfg.am, s.log) + s.refused
    ensures forall op :: op in s.acked ==>
                           op in s.log && Changes(cfg.am, op.payload) <= Loaded(cfg.am, Crash(s, h)).value
  {
    ReachableSafe(cfg, h, acts);
    RebuiltFromStore(cfg.am, s);
    assert Loaded(cfg.am, Crash(s, h)) == Loaded(cfg.am, s);
  }

  /** Every stored snapshot, not only the latest, followed by the later entries means the whole log. */
  lemma SnapshotsMeanTheLog(cfg: Config, h: NodeId, acts: seq<Action>, s: State, n: nat)
    requires cfg.am.Laws() && Exec(HomeStep(cfg, h), INIT, acts) == Some(s) && n in s.snaps
    ensures n <= |s.log|
    ensures Rehydrated(cfg.am, s.snaps[n], Since(s.log, n)).Some?
    ensures Fold(cfg.am, s.log) <= Rehydrated(cfg.am, s.snaps[n], Since(s.log, n)).value
            <= Fold(cfg.am, s.log) + s.refused
  {
    ReachableSafe(cfg, h, acts);
    StandsForWhole(cfg.am, s, s.snaps[n], n);
  }

  /** Double-checked loading: among any number of goroutines loading at once, what the second check installs is never
      missing a commit, however old the read was; a load that missed one finds an entry and is dropped. */
  lemma StaleLoadIsNeverInstalled(cfg: Config, h: NodeId, acts: seq<Action>, s: State, g: Gid, newCell: CellId,
                                  s': State)
    requires cfg.am.Laws() && Exec(HomeStep(cfg, h), INIT, acts) == Some(s)
    requires InstallDoc(s, g, newCell) == Some(s')
    ensures h in s'.entry && s'.entry[h] in s'.cells
    ensures Fold(cfg.am, s'.log) <= s'.cells[s'.entry[h]].doc
    ensures !(Fold(cfg.am, s.log) <= s.procs[g].pc.doc) ==> h in s.entry && s'.entry == s.entry && s'.cells == s.cells
  {
    ReachableSafe(cfg, h, acts);
    InstallKeepsHome(cfg.am, h, s, g, newCell);
  }

  /** The next region of a goroutine, with every external call succeeding. */
  ghost function NextAction(s: State, g: Gid, newCell: CellId): Action
    requires g in s.procs
  {
    match s.procs[g].pc
    case Lookup => DoLookup(g)
    case ReadSnapshot => DoReadSnapshot(g, true)
    case ReadOps(_, _) => DoReadOps(g, true)
    case Install(_, _) => DoInstall(g, newCell)
    case Acquire(_) => DoAcquire(g)
    case Locked(_) =>
      (match s.procs[g].job
       case Submit(_, _) => DoApply(g, Unconfigured)
       case ManualSnapshot => DoLatest(g)
       case Export => DoExport(g))
    case Applied(_) => DoAppend(g, true)
    case Appended(_, _) => DoEmit(g)
    case Emitted(_, _) => DoSave(g, true)
    case Saved(_, _) => DoPublish(g)
    case Published(_, _) => DoReturn(g)
    case _ => DoSaveManual(g, true)
  }

  /** Nothing makes a goroutine wait before it has its docState, */
  lemma RunnableLoading(cfg: Config, h: NodeId, s: State, g: Gid, newCell: CellId)
    requires newCell !in s.cells && g in s.procs && !Finished(s.procs[g].pc) && !HasCell(s.procs[g].pc)
    ensures HomeStep(cfg, h)(s, NextAction(s, g, newCell)).Some?
  {
  }

  /** nor once it has the lock; */
  lemma RunnableHolding(cfg: Config, h: NodeId, s: State, g: Gid, newCell: CellId)
    requires g in s.procs && Holding(s.procs[g].pc) && s.procs[g].pc.cell in s.cells
    requires s.procs[g].pc.Applied? || Committing(s.procs[g].pc) ==> s.procs[g].job.Submit?
    ensures HomeStep(cfg, h)(s, NextAction(s, g, newCell)).Some?
  {
  }

  /** only the document lock does. */
  lemma RunnableUnlessWaiting(cfg: Config, h: NodeId, s: State, g: Gid, newCell: CellId)
    requires Safe(cfg.am, h, s) && newCell !in s.cells
    requires g in s.procs && !Finished(s.procs[g].pc)
    requires s.procs[g].pc.Acquire? ==> s.cells[s.entry[h]].owner.None?
    ensures HomeStep(cfg, h)(s, NextAction(s, g, newCell)).Some?
  {
    if Holding(s.procs[g].pc) {
      assert Committing(s.procs[g].pc) ==> OwnsEntry(s.log, s.procs[g], s.procs[g].pc.seqNo);
      RunnableHolding(cfg, h, s, g, newCell);
    } else if !s.procs[g].pc.Acquire? {
      RunnableLoading(cfg, h, s, g, newCell);
    }
  }

  /** Nobody waits for ever behind the document lock: in every reachable state with an unfinished goroutine, that
      goroutine or the holder of the lock it waits for can take its next step. */
  lemma SomebodyCanStep(cfg: Config, h: NodeId, acts: seq<Action>, s: State, g: Gid) returns (who: Gid, newCell: CellId)
    requires cfg.am.Laws() && Exec(HomeStep(cfg, h), INIT, acts) == Some(s)
    requires g in s.procs && !Finished(s.procs[g].pc)
    ensures who in s.procs && !Finished(s.procs[who].pc)
    ensures who == g || (s.procs[g].pc.Acquire? && Holding(s.procs[who].pc))
    ensures HomeStep(cfg, h)(s, NextAction(s, who, newCell)).Some?
  {
    ReachableSafe(cfg, h, acts);
    newCell := 0;
    if s.cells.Keys != {} {
      MaxExists(s.cells.Keys);
      var top :| top in s.cells.Keys && forall m :: m in s.cells.Keys ==> m <= top;
      newCell := top + 1;
    }
    who := if s.procs[g].pc.Acquire? && s.cells[s.entry[h]].owner.Some? then s.cells[s.entry[h]].owner.value else g;
    RunnableUnlessWaiting(cfg, h, s, who, newCell);
  }
}
