/** For every hazard a delete can cross, a run that loses an acked change; with it, exactly which hazards may be
    tolerated. */
module EngineDeleteRuns {
  import opened Core
  import opened Crdt
  import opened Runs
  import opened EngineProtocol
  import opened EngineServer
  import opened EngineCache
  import opened EngineRuns
  import opened EngineDelete
  import EngineRefinement
  import SqlStore
  import Transactions

  // ----- the pieces of the runs -----------------------------------------------------------------------------------

  /** Runs from the beginning that tolerate some hazards. */
  ghost function Race(cfg: Config, h: NodeId, tolerated: set<Hazard>): Setting {
    Setting(cfg, h, Unconfigured, CrossStep(cfg, h, tolerated), INIT)
  }

  predicate Carries(am: Automerge, job: Job) {
    job.Submit? && |job.payload| > 0 && Decodes(am, job.payload)
  }

  /** No store call fails, except the save of a snapshot. */
  const SAVE_FAILS := Faults(false, false, SqlStore.NoFault, false, true)

  /** A state in which nothing has been committed yet in this life. */
  ghost predicate Unwritten(s: State) {
    s.log == [] && s.snaps == map[]
  }

  lemma UnwrittenOpensEmpty(am: Automerge, s: State, h: NodeId, row: bool, f: Faults)
    requires Unwritten(s) && h !in s.entry && !f.getSnapshot && !f.getOps
    ensures Opened(am, Seen(s, h, row), f) == Some({})
  {
    assert {} + Fold(am, []) == {};
  }

  lemma RaceAllows(cfg: Config, h: NodeId, tolerated: set<Hazard>)
    ensures Race(cfg, h, tolerated).Allows() && Race(cfg, h, tolerated).At(INIT)
  {
    AtStart(Race(cfg, h, tolerated));
  }

  /** A whole submit on a node that has nothing cached, in an unwritten life: entry 1, acked. */
  lemma FirstSubmit(w: Setting, s: State, g: Gid, newCell: CellId, job: Job) returns (s': State)
    requires w.At(s) && w.r == Unconfigured && Unwritten(s) && g !in s.procs && w.node !in s.entry
             && newCell !in s.cells
    requires Carries(w.cfg.am, job)
    ensures w.At(s') && Only(s, s', g, newCell) && s'.procs[g] == Proc(w.node, job, Acked(1))
    ensures s'.log == [Op(1, job.session, job.payload)] && s'.acked == s.acked + [Op(1, job.session, job.payload)]
            && s'.snaps == map[]
    ensures Idle(s', w.node) && Cached(w.node, s') && s'.entry[w.node] == newCell
            && CachedDoc(w.node, s') == Changes(w.cfg.am, job.payload)
    ensures forall n :: n != w.node ==>
                          (n in s'.entry <==> n in s.entry) && (n in s.entry ==> s'.entry[n] == s.entry[n])
  {
    UnwrittenOpensEmpty(w.cfg.am, s, w.node, true, SAVE_FAILS);
    assert {} + Changes(w.cfg.am, job.payload) == Changes(w.cfg.am, job.payload);
    s' := EngineRefinement.SubmitIsARun(w, Transactions.Immediate, s, g, newCell, true, job.session, job.payload,
                                        SAVE_FAILS);
  }

  /** The row is deleted: a new life, with whoever is unfinished still in flight. */
  lemma DeleteRun(cfg: Config, h: NodeId, tolerated: set<Hazard>, s: State) returns (s': State)
    requires Race(cfg, h, tolerated).At(s) && Crosses(cfg.snapshotEvery, tolerated, s, DoDelete)
    ensures Race(cfg, h, tolerated).At(s') && Unwritten(s') && s'.acked == [] && s'.entry == s.entry
            && s'.cells == s.cells
    ensures forall g :: g in s'.procs <==> g in s.procs && !Finished(s.procs[g].pc)
    ensures forall g :: g in s'.procs ==> s'.procs[g] == s.procs[g]
  {
    s' := Delete(s);
    Extend(Race(cfg, h, tolerated), s, DoDelete, s');
  }

  /** The cached document is dropped. */
  lemma ForgetRun(cfg: Config, h: NodeId, tolerated: set<Hazard>, s: State) returns (s': State)
    requires Race(cfg, h, tolerated).At(s) && Crosses(cfg.snapshotEvery, tolerated, s, DoForget(h))
    ensures Race(cfg, h, tolerated).At(s') && SameStore(s, s')
    ensures h !in s'.entry && s'.cells == s.cells && s'.procs == s.procs
  {
    s' := Forget(s, h);
    Extend(Race(cfg, h, tolerated), s, DoForget(h), s');
  }

  /** The node dies. */
  lemma CrashRun(cfg: Config, h: NodeId, tolerated: set<Hazard>, s: State) returns (s': State)
    requires Race(cfg, h, tolerated).At(s) && forall g :: g in s.procs ==> s.procs[g].node == h
    ensures Race(cfg, h, tolerated).At(s') && SameStore(s, s')
    ensures h !in s'.entry && s'.cells == s.cells && s'.procs == map[]
  {
    s' := Crash(s, h);
    assert Step(cfg, s, DoCrash(h)) == Some(s');
    Extend(Race(cfg, h, tolerated), s, DoCrash(h), s');
  }

  // ----- losing an acked change -----------------------------------------------------------------------------------

  /** A change of op is missing from the cached document or from what a load yields. */
  ghost predicate Missing(am: Automerge, h: NodeId, s: State, op: Op) {
    || (Cached(h, s) && !(Changes(am, op.payload) <= CachedDoc(h, s)))
    || (Loaded(am, s).Some? && !(Changes(am, op.payload) <= Loaded(am, s).value))
  }

  ghost predicate Loses(am: Automerge, h: NodeId, s: State) {
    exists op :: op in s.acked && op in s.log && Missing(am, h, s, op)
  }

  lemma LosesIsLoss(am: Automerge, h: NodeId, s: State)
    requires Loses(am, h, s)
    ensures !NoLoss(am, h, s)
  {
    var op :| op in s.acked && op in s.log && Missing(am, h, s, op);
    var i :| 0 <= i < |s.log| && s.log[i] == op;
    FoldHolds(am, s.log, i);
  }

  /** A store whose only snapshot is numbered as high as the log loads just that snapshot. */
  lemma SnapshotHidesLog(am: Automerge, s: State, n: nat, d: Doc)
    requires am.Laws() && s.snaps == map[n := am.save(d)] && 0 < n && |s.log| <= n
    ensures Loaded(am, s) == Some(d)
  {
    assert n in s.snaps && s.snaps != map[];
    assert Highest(s.snaps) == n;
    assert Since(s.log, n) == [] && d + Fold(am, []) == d;
  }

  /** The jobs of a run: the second carries a change the first does not. */
  ghost predicate Differ(am: Automerge, a: Job, b: Job) {
    Carries(am, a) && Carries(am, b) && !(Changes(am, b.payload) <= Changes(am, a.payload))
  }

  // ----- a delete with one goroutine in flight --------------------------------------------------------------------

  /** Goroutine g is the only one in flight. */
  ghost predicate Alone(s: State, g: Gid) {
    g in s.procs && !Finished(s.procs[g].pc) && forall x :: x in s.procs && x != g ==> Finished(s.procs[x].pc)
  }

  ghost predicate MayCross(k: int, tolerated: set<Hazard>, p: Proc) {
    && (DeleteHazard(k, p).Some? ==> DeleteHazard(k, p).value in tolerated)
    && (ForgetHazard(p).Some? ==> ForgetHazard(p).value in tolerated)
  }

  /** What the delete leaves of the new life: entry 1 is b's, acked; goroutine g is where it was. */
  ghost predicate Rewritten(s: State, s': State, g: Gid, b: Job) {
    && b.Submit? && s'.log == [Op(1, b.session, b.payload)] && s'.acked == s'.log && s'.snaps == map[]
    && g in s.procs && g in s'.procs && s'.procs[g] == s.procs[g]
    && forall c :: c in s.cells ==> c in s'.cells && s'.cells[c] == s.cells[c]
  }

  /** The row is deleted, a submit commits before the cached document is dropped, and then it is dropped. */
  lemma WrittenBetween(cfg: Config, h: NodeId, tolerated: set<Hazard>, s: State, g: Gid, g2: Gid, c2: CellId, b: Job)
    returns (s': State)
    requires Race(cfg, h, tolerated).At(s) && Alone(s, g) && MayCross(cfg.snapshotEvery, tolerated, s.procs[g])
    requires h !in s.entry && g2 !in s.procs && c2 !in s.cells && Carries(cfg.am, b)
    ensures Race(cfg, h, tolerated).At(s') && Rewritten(s, s', g, b) && h !in s'.entry
    ensures forall c :: c in s'.cells ==> c in s.cells || c == c2
  {
    var s1 := DeleteRun(cfg, h, tolerated, s);
    var s2 := FirstSubmit(Race(cfg, h, tolerated), s1, g2, c2, b);
    s' := ForgetRun(cfg, h, tolerated, s2);
  }

  /** The row is deleted, the cached document is dropped, and then a submit commits. */
  lemma WrittenAfter(cfg: Config, h: NodeId, tolerated: set<Hazard>, s: State, g: Gid, g2: Gid, c2: CellId, b: Job)
    returns (s': State)
    requires Race(cfg, h, tolerated).At(s) && Alone(s, g) && MayCross(cfg.snapshotEvery, tolerated, s.procs[g])
    requires g2 !in s.procs && c2 !in s.cells && Carries(cfg.am, b)
    ensures Race(cfg, h, tolerated).At(s') && Rewritten(s, s', g, b)
  {
    var s1 := DeleteRun(cfg, h, tolerated, s);
    var s2 := ForgetRun(cfg, h, tolerated, s1);
    s' := FirstSubmit(Race(cfg, h, tolerated), s2, g2, c2, b);
  }

  // ----- hazards of the drop --------------------------------------------------------------------------------------

  /** A load that has read everything installs it after the map's entry was dropped. */
  lemma OldLoadLoses(w: Setting, s: State, b: Job) returns (s': State)
    requires w.At(s) && b.Submit? && s.log == [Op(1, b.session, b.payload)] && s.log[0] in s.acked
    requires 1 in s.procs && s.procs[1].node == w.node && s.procs[1].pc.Install? && w.node !in s.entry && 3 !in s.cells
    requires !(Changes(w.cfg.am, b.payload) <= s.procs[1].pc.doc)
    ensures w.At(s') && Loses(w.cfg.am, w.node, s')
  {
    s' := InstallRun(w, s, 1, 3);
    assert Missing(w.cfg.am, w.node, s', s.log[0]);
  }

  /** A node that died after it had committed entry 1. */
  lemma Restarted(cfg: Config, h: NodeId, tolerated: set<Hazard>, a: Job) returns (s: State)
    requires Carries(cfg.am, a)
    ensures Race(cfg, h, tolerated).At(s) && s.procs == map[] && h !in s.entry && s.cells.Keys == {0}
    ensures s.log == [Op(1, a.session, a.payload)] && s.snaps == map[]
  {
    RaceAllows(cfg, h, tolerated);
    var s1 := FirstSubmit(Race(cfg, h, tolerated), INIT, 0, 0, a);
    s := CrashRun(cfg, h, tolerated, s1);
  }

  lemma OpensFirst(am: Automerge, s: State, h: NodeId, a: Job, f: Faults)
    requires a.Submit? && Decodes(am, a.payload) && s.log == [Op(1, a.session, a.payload)] && s.snaps == map[]
    requires h !in s.entry && !f.getSnapshot && !f.getOps
    ensures Opened(am, Seen(s, h, true), f) == Some(Changes(am, a.payload))
  {
    assert [] + s.log == s.log;
    FoldSnoc(am, [], s.log[0]);
    assert Since(s.log, 0) == s.log && Fold(am, s.log) == Changes(am, a.payload);
    assert {} + Fold(am, s.log) == Fold(am, s.log);
  }

  /** A load that has read everything is overtaken by a submit after the row's delete; then the cached document is
      dropped, and the old load is installed. */
  lemma LoadedDocLoses(cfg: Config, h: NodeId, tolerated: set<Hazard>, a: Job, b: Job) returns (s: State)
    requires Differ(cfg.am, a, b) && LoadedDoc in tolerated
    ensures Race(cfg, h, tolerated).At(s) && Loses(cfg.am, h, s)
  {
    var s1 := Restarted(cfg, h, tolerated, a);
    OpensFirst(cfg.am, s1, h, a, ALL_SUCCEED);
    var s2 := LoadRun(Race(cfg, h, tolerated), s1, 1, Export, ALL_SUCCEED);
    var s3 := WrittenBetween(cfg, h, tolerated, s2, 1, 2, 2, b);
    s := OldLoadLoses(Race(cfg, h, tolerated), s3, b);
  }

  /** Entry 1 is committed; goroutine 1 is in flight with docState 0, which is all there is. */
  ghost predicate Begun(s: State, p: Proc, owner: Option<Gid>) {
    && s.snaps == map[] && 1 in s.procs && s.procs[1] == p && Alone(s, 1) && 2 !in s.procs
    && 0 in s.cells && s.cells[0].owner == owner && forall c :: c in s.cells ==> c == 0
  }

  lemma BegunRun(cfg: Config, h: NodeId, tolerated: set<Hazard>, a: Job, job: Job) returns (s: State)
    requires Carries(cfg.am, a) && (job.Submit? ==> job.payload != [])
    ensures Race(cfg, h, tolerated).At(s) && Begun(s, Proc(h, job, Acquire(0)), None)
    ensures s.cells[0].doc == Changes(cfg.am, a.payload)
  {
    var w := Race(cfg, h, tolerated);
    RaceAllows(cfg, h, tolerated);
    var s1 := FirstSubmit(w, INIT, 0, 0, a);
    s := OpenRun(w, s1, 1, job, 5, true, ALL_SUCCEED);
  }

  /** A submit that has its docState and has not appended, at one of its three stages. */
  predicate SubmitStage(z: Hazard) {
    z.SubmitWaiting? || z.SubmitLocked? || z.SubmitMerged?
  }

  function StageOf(z: Hazard): Pc {
    if z.SubmitWaiting? || z.SnapshotWaiting? then Acquire(0) else if z.SubmitMerged? then Applied(0) else Locked(0)
  }

  lemma SubmitInFlight(cfg: Config, h: NodeId, tolerated: set<Hazard>, a: Job, b: Job, z: Hazard) returns (s: State)
    requires Carries(cfg.am, a) && Carries(cfg.am, b) && SubmitStage(z)
    ensures Race(cfg, h, tolerated).At(s)
    ensures Begun(s, Proc(h, b, StageOf(z)), if z.SubmitWaiting? then None else Some(1))
  {
    var w := Race(cfg, h, tolerated);
    var s1 := BegunRun(cfg, h, tolerated, a, b);
    if z.SubmitWaiting? {
      s := s1;
    } else {
      var s2 := LockRun(w, s1, 1, 0);
      if z.SubmitLocked? { s := s2; } else { s := ApplyRun(w, s2, 1, 0); }
    }
  }

  /** Its remaining stages. */
  lemma FinishSubmit(w: Setting, s: State, b: Job, z: Hazard) returns (s': State)
    requires w.At(s) && w.r == Unconfigured && Unwritten(s) && 1 in s.procs && Carries(w.cfg.am, b) && SubmitStage(z)
    requires s.procs[1] == Proc(w.node, b, StageOf(z)) && 0 in s.cells
    requires s.cells[0].owner == if z.SubmitWaiting? then None else Some(1)
    ensures w.At(s') && Only(s, s', 1, 0) && s'.entry == s.entry
    ensures s'.log == [Op(1, b.session, b.payload)] && s'.acked == s.acked + s'.log
  {
    var s1 := s;
    if z.SubmitWaiting? { s1 := LockRun(w, s, 1, 0); }
    var s2 := s1;
    if !z.SubmitMerged? { s2 := ApplyRun(w, s1, 1, 0); }
    s' := CommitRun(w, s2, 1, 0, false);
  }

  /** The row is deleted and the cached document dropped, and a request loads the empty document anew. */
  lemma Reloaded(cfg: Config, h: NodeId, tolerated: set<Hazard>, s: State, p: Proc, owner: Option<Gid>)
    returns (s': State)
    requires Race(cfg, h, tolerated).At(s) && Begun(s, p, owner) && MayCross(cfg.snapshotEvery, tolerated, p)
    ensures Race(cfg, h, tolerated).At(s') && Unwritten(s')
    ensures 1 in s'.procs && s'.procs[1] == p && 0 in s'.cells && s'.cells[0].owner == owner
    ensures Cached(h, s') && s'.entry[h] == 2 && CachedDoc(h, s') == {}
  {
    var s1 := DeleteRun(cfg, h, tolerated, s);
    var s2 := ForgetRun(cfg, h, tolerated, s1);
    UnwrittenOpensEmpty(cfg.am, s2, h, true, ALL_SUCCEED);
    s' := EngineRefinement.ExportIsARun(Race(cfg, h, tolerated), s2, 2, 2, true, ALL_SUCCEED);
  }

  /** The submit appends through the dropped docState, while a later request has loaded a new one. */
  lemma SubmitLoses(cfg: Config, h: NodeId, tolerated: set<Hazard>, a: Job, b: Job, z: Hazard) returns (s: State)
    requires Differ(cfg.am, a, b) && z in tolerated && SubmitStage(z)
    ensures Race(cfg, h, tolerated).At(s) && Loses(cfg.am, h, s)
  {
    var owner := if z.SubmitWaiting? then None else Some(1);
    var s1 := SubmitInFlight(cfg, h, tolerated, a, b, z);
    var s2 := Reloaded(cfg, h, tolerated, s1, Proc(h, b, StageOf(z)), owner);
    s := OrphanLoses(Race(cfg, h, tolerated), s2, b, z);
  }

  lemma OrphanLoses(w: Setting, s: State, b: Job, z: Hazard) returns (s': State)
    requires w.At(s) && w.r == Unconfigured && Unwritten(s) && 1 in s.procs && Carries(w.cfg.am, b) && SubmitStage(z)
    requires s.procs[1] == Proc(w.node, b, StageOf(z)) && 0 in s.cells
    requires s.cells[0].owner == if z.SubmitWaiting? then None else Some(1)
    requires Cached(w.node, s) && s.entry[w.node] == 2 && CachedDoc(w.node, s) == {}
    requires Changes(w.cfg.am, b.payload) != {}
    ensures w.At(s') && Loses(w.cfg.am, w.node, s')
  {
    s' := FinishSubmit(w, s, b, z);
    assert CachedDoc(w.node, s') == {};
    assert s'.log[0] in s'.acked && Missing(w.cfg.am, w.node, s', s'.log[0]);
  }

  /** It saves the dropped document under the length of the log as it has become since. */
  lemma FinishSnapshot(w: Setting, s: State, z: Hazard) returns (s': State)
    requires w.At(s) && (z.SnapshotWaiting? || z.SnapshotLocked?) && s.snaps == map[]
    requires 1 in s.procs && s.procs[1] == Proc(w.node, ManualSnapshot, StageOf(z)) && 0 in s.cells
    requires s.cells[0].owner == if z.SnapshotWaiting? then None else Some(1)
    ensures w.At(s') && s'.log == s.log && s'.acked == s.acked
    ensures s'.snaps == map[|s.log| := w.cfg.am.save(s.cells[0].doc)]
  {
    var s1 := s;
    if z.SnapshotWaiting? { s1 := LockRun(w, s, 1, 0); }
    var s2 := SizeRun(w, s1, 1, 0);
    s' := SaveManualRun(w, s2, 1, 0, true);
  }

  /** A manual snapshot that has its docState and has not read the log's length. */
  lemma SnapshotLoses(cfg: Config, h: NodeId, tolerated: set<Hazard>, a: Job, b: Job, z: Hazard) returns (s: State)
    requires cfg.am.Laws() && Differ(cfg.am, a, b) && z in tolerated && (z.SnapshotWaiting? || z.SnapshotLocked?)
    ensures Race(cfg, h, tolerated).At(s) && Loses(cfg.am, h, s)
  {
    var w := Race(cfg, h, tolerated);
    var s1 := BegunRun(cfg, h, tolerated, a, ManualSnapshot);
    var s2 := s1;
    if z.SnapshotLocked? { s2 := LockRun(w, s1, 1, 0); }
    var s3 := WrittenAfter(cfg, h, tolerated, s2, 1, 2, 2, b);
    s := FinishSnapshot(w, s3, z);
    HiddenLoses(cfg.am, h, s, 1, Changes(cfg.am, a.payload), b);
  }

  /** Entry 1 is acked and hidden by a snapshot without its changes. */
  lemma HiddenLoses(am: Automerge, h: NodeId, s: State, n: nat, d: Doc, b: Job)
    requires am.Laws() && s.snaps == map[n := am.save(d)] && n >= 1
    requires b.Submit? && s.log == [Op(1, b.session, b.payload)] && s.acked == s.log && !(Changes(am, b.payload) <= d)
    ensures Loses(am, h, s)
  {
    SnapshotHidesLog(am, s, n, d);
    assert s.log[0] in s.acked && Missing(am, h, s, s.log[0]);
  }

  // ----- hazards of the row's delete ------------------------------------------------------------------------------

  /** A node that died after a manual snapshot at entry 1. */
  lemma RestartedAfterSnapshot(cfg: Config, h: NodeId, tolerated: set<Hazard>, a: Job) returns (s: State)
    requires cfg.am.Laws() && Carries(cfg.am, a)
    ensures Race(cfg, h, tolerated).At(s) && s.procs == map[] && h !in s.entry && s.cells.Keys == {0}
    ensures s.snaps == map[1 := cfg.am.save(Changes(cfg.am, a.payload))]
  {
    var w := Race(cfg, h, tolerated);
    RaceAllows(cfg, h, tolerated);
    var s1 := FirstSubmit(w, INIT, 0, 0, a);
    var s2 := EngineRefinement.SnapshotIsARun(w, s1, 5, 5, true, ALL_SUCCEED);
    s := CrashRun(cfg, h, tolerated, s2);
  }

  /** A load that has read a snapshot of the old life. */
  lemma LoadInFlight(cfg: Config, h: NodeId, tolerated: set<Hazard>, a: Job) returns (s: State)
    requires cfg.am.Laws() && Carries(cfg.am, a)
    ensures Race(cfg, h, tolerated).At(s)
            && s.procs == map[1 := Proc(h, Export, ReadOps(cfg.am.save(Changes(cfg.am, a.payload)), 1))]
    ensures h !in s.entry && s.cells.Keys == {0}
  {
    var w := Race(cfg, h, tolerated);
    var s1 := RestartedAfterSnapshot(cfg, h, tolerated, a);
    assert 1 in s1.snaps && Highest(s1.snaps) == 1;
    var s2 := StartRun(w, s1, 1, Export);
    s := ReadRun(w, s2, 1, true);
  }

  /** The load takes the old snapshot for the first entries of the new life, and is installed after the drop. */
  lemma LoadFromSnapshotLoses(cfg: Config, h: NodeId, tolerated: set<Hazard>, a: Job, b: Job) returns (s: State)
    requires cfg.am.Laws() && Differ(cfg.am, a, b) && LoadFromSnapshot in tolerated
    ensures Race(cfg, h, tolerated).At(s) && Loses(cfg.am, h, s)
  {
    var w, d := Race(cfg, h, tolerated), Changes(cfg.am, a.payload);
    var s1 := LoadInFlight(cfg, h, tolerated, a);
    var s2 := WrittenBetween(cfg, h, tolerated, s1, 1, 2, 2, b);
    assert Since(s2.log, 1) == [] && d + Fold(cfg.am, []) == d;
    var s3 := TailRun(w, s2, 1, true);
    s := OldLoadLoses(w, s3, b);
  }

  /** A manual snapshot that has read the old log's length. */
  lemma SizedInFlight(cfg: Config, h: NodeId, tolerated: set<Hazard>, a: Job) returns (s: State)
    requires Carries(cfg.am, a)
    ensures Race(cfg, h, tolerated).At(s) && s.procs.Keys == {0, 1} && s.cells.Keys == {0} && s.procs[0].pc.Acked?
    ensures s.procs[1] == Proc(h, ManualSnapshot, Sized(0, 1)) && s.cells[0].doc == Changes(cfg.am, a.payload)
  {
    var w := Race(cfg, h, tolerated);
    RaceAllows(cfg, h, tolerated);
    s := FirstSubmit(w, INIT, 0, 0, a);
    s := HoldRun(w, s, 1, ManualSnapshot, 5, true, ALL_SUCCEED);
    s := SizeRun(w, s, 1, 0);
  }

  /** It saves the old document under a number of the new life. */
  lemma SizedSnapshotLoses(cfg: Config, h: NodeId, tolerated: set<Hazard>, a: Job, b: Job) returns (s: State)
    requires cfg.am.Laws() && Differ(cfg.am, a, b) && SizedSnapshot in tolerated
    ensures Race(cfg, h, tolerated).At(s) && Loses(cfg.am, h, s)
  {
    var w := Race(cfg, h, tolerated);
    var s1 := SizedInFlight(cfg, h, tolerated, a);
    var s2 := WrittenAfter(cfg, h, tolerated, s1, 1, 2, 2, b);
    s := SaveManualRun(w, s2, 1, 0, true);
    HiddenLoses(cfg.am, h, s, 1, Changes(cfg.am, a.payload), b);
  }

  ghost predicate AllCarry(am: Automerge, jobs: seq<Job>) {
    forall i :: 0 <= i < |jobs| ==> Carries(am, jobs[i])
  }

  /** The log holds the jobs' payloads, in order. */
  ghost predicate Holding(log: seq<Op>, jobs: seq<Job>) {
    && |log| == |jobs|
    && forall i :: 0 <= i < |jobs| ==> jobs[i].Submit? && log[i] == Op(i + 1, jobs[i].session, jobs[i].payload)
  }

  /** The jobs were submitted one after the other and acked; no snapshot was saved. */
  ghost predicate Filled(am: Automerge, h: NodeId, jobs: seq<Job>, s: State) {
    && Holding(s.log, jobs) && s.acked == s.log && s.snaps == map[] && Idle(s, h)
    && (if jobs == [] then s == INIT else Cached(h, s) && CachedDoc(h, s) == Fold(am, s.log))
    && (forall g :: g in s.procs ==> g < |jobs| && s.procs[g].node == h && Finished(s.procs[g].pc))
    && (forall c :: c in s.cells ==> c == 0)
  }

  /** What one more submit makes of the view. */
  lemma FilledView(cfg: Config, h: NodeId, jobs: seq<Job>, job: Job, s: State, r: Resolution)
    requires Automatic(cfg.am, r) && Carries(cfg.am, job) && Filled(cfg.am, h, jobs, s)
    ensures var n, op := |jobs| + 1, Op(|jobs| + 1, job.session, job.payload);
            Submitted(cfg, Transactions.Immediate, Seen(s, h, true), job.session, job.payload, r, SAVE_FAILS)
            == (View(true, s.log + [op], map[], Some(Fold(cfg.am, s.log + [op]))), Some(n))
  {
    var am := cfg.am;
    if jobs == [] { UnwrittenOpensEmpty(am, s, h, true, SAVE_FAILS); }
    assert Opened(am, Seen(s, h, true), SAVE_FAILS) == Some(Fold(am, s.log));
    assert ApplyChange(am, Fold(am, s.log), job.payload, r) == Some(Fold(am, s.log) + Changes(am, job.payload));
    FoldSnoc(am, s.log, Op(|jobs| + 1, job.session, job.payload));
  }

  lemma FillOne(w: Setting, jobs: seq<Job>, job: Job, s: State) returns (s': State)
    requires w.At(s) && Automatic(w.cfg.am, w.r) && Carries(w.cfg.am, job) && Filled(w.cfg.am, w.node, jobs, s)
    ensures w.At(s') && Filled(w.cfg.am, w.node, jobs + [job], s')
  {
    FilledView(w.cfg, w.node, jobs, job, s, w.r);
    s' := EngineRefinement.SubmitIsARun(w, Transactions.Immediate, s, |jobs|, if jobs == [] then 0 else 1, true,
                                        job.session, job.payload, SAVE_FAILS);
  }

  lemma {:induction false} Fill(w: Setting, jobs: seq<Job>) returns (s: State)
    requires w.Allows() && w.start == INIT && Automatic(w.cfg.am, w.r) && AllCarry(w.cfg.am, jobs)
    ensures w.At(s) && Filled(w.cfg.am, w.node, jobs, s)
    decreases |jobs|
  {
    if jobs == [] {
      AtStart(w);
      s := INIT;
    } else {
      var before, job := jobs[..|jobs| - 1], jobs[|jobs| - 1];
      var s1 := Fill(w, before);
      s := FillOne(w, before, job, s1);
      assert jobs == before + [job];
    }
  }

  lemma {:induction false} FoldOfSame(am: Automerge, log: seq<Op>, payload: Bytes)
    requires forall i :: 0 <= i < |log| ==> log[i].payload == payload
    ensures Fold(am, log) <= Changes(am, payload)
    decreases |log|
  {
    if log != [] { FoldOfSame(am, log[..|log| - 1], payload); }
  }

  /** A submit that has merged and will commit a due number. */
  lemma MergedAtDue(cfg: Config, h: NodeId, tolerated: set<Hazard>, a: Job) returns (s: State, c: CellId)
    requires cfg.snapshotEvery > 0 && Carries(cfg.am, a)
    ensures var k := cfg.snapshotEvery;
            && Race(cfg, h, tolerated).At(s) && |s.log| == k - 1 && s.snaps == map[]
            && k in s.procs && s.procs[k] == Proc(h, a, Applied(c))
            && (forall g :: g in s.procs && g != k ==> g < k && s.procs[g].node == h && Finished(s.procs[g].pc))
            && c in s.cells && s.cells[c].doc <= Changes(cfg.am, a.payload) && (forall x :: x in s.cells ==> x == 0)
  {
    var w, k := Race(cfg, h, tolerated), cfg.snapshotEvery;
    RaceAllows(cfg, h, tolerated);
    var s1 := Fill(w, seq(k - 1, _ => a));
    FoldOfSame(cfg.am, s1.log, a.payload);
    if k == 1 { UnwrittenOpensEmpty(cfg.am, s1, h, true, ALL_SUCCEED); }
    c := CellFor(s1, h, if k == 1 then 0 else 1);
    var s2 := HoldRun(w, s1, k, a, if k == 1 then 0 else 1, true, ALL_SUCCEED);
    s := ApplyRun(w, s2, k, c);
  }

  /** A submit that has committed a due number and not saved yet. */
  lemma OwedInFlight(cfg: Config, h: NodeId, tolerated: set<Hazard>, a: Job, emitted: bool)
    returns (s: State, c: CellId)
    requires cfg.snapshotEvery > 0 && Carries(cfg.am, a)
    ensures var k := cfg.snapshotEvery;
            && Race(cfg, h, tolerated).At(s) && SnapshotDue(k, k) && Alone(s, k) && k + 1 !in s.procs && 2 !in s.cells
            && |s.log| == k && s.snaps == map[] && (forall g :: g in s.procs ==> s.procs[g].node == h)
            && s.procs[k] == Proc(h, a, if emitted then Emitted(c, k) else Appended(c, k))
            && c in s.cells && s.cells[c].doc <= Changes(cfg.am, a.payload)
  {
    var w, k := Race(cfg, h, tolerated), cfg.snapshotEvery;
    var s1;
    s1, c := MergedAtDue(cfg, h, tolerated, a);
    var s2 := AppendRun(w, s1, k, c);
    if emitted { s := EmitRun(w, s2, k, c); } else { s := s2; }
  }

  /** It saves the old document under a number of the new life. */
  lemma OwedLoses(cfg: Config, h: NodeId, tolerated: set<Hazard>, a: Job, b: Job, emitted: bool) returns (s: State)
    requires cfg.am.Laws() && Differ(cfg.am, a, b) && cfg.snapshotEvery > 0
    requires (if emitted then EmittedDue else AppendedDue) in tolerated
    ensures Race(cfg, h, tolerated).At(s) && Loses(cfg.am, h, s)
  {
    var w, k := Race(cfg, h, tolerated), cfg.snapshotEvery;
    var s1, c := OwedInFlight(cfg, h, tolerated, a, emitted);
    var s2 := WrittenAfter(cfg, h, tolerated, s1, k, k + 1, 2, b);
    var s3 := s2;
    if !emitted { s3 := EmitRun(w, s2, k, c); }
    s := SaveRun(w, s3, k, c, true);
    HiddenLoses(cfg.am, h, s, k, s1.cells[c].doc, b);
  }

  // ----- exactly which hazards may be tolerated -------------------------------------------------------------------

  /** Without periodic snapshots nobody owes one. */
  predicate Harmless(k: int, z: Hazard) {
    k <= 0 && (z.AppendedDue? || z.EmittedDue?)
  }

  lemma HazardLoses(cfg: Config, h: NodeId, tolerated: set<Hazard>, a: Job, b: Job, z: Hazard) returns (s: State)
    requires cfg.am.Laws() && Differ(cfg.am, a, b) && z in tolerated && !Harmless(cfg.snapshotEvery, z)
    ensures Race(cfg, h, tolerated).At(s) && Loses(cfg.am, h, s)
  {
    match z
    case LoadFromSnapshot => s := LoadFromSnapshotLoses(cfg, h, tolerated, a, b);
    case SizedSnapshot => s := SizedSnapshotLoses(cfg, h, tolerated, a, b);
    case AppendedDue => s := OwedLoses(cfg, h, tolerated, a, b, false);
    case EmittedDue => s := OwedLoses(cfg, h, tolerated, a, b, true);
    case LoadedDoc => s := LoadedDocLoses(cfg, h, tolerated, a, b);
    case SnapshotWaiting => s := SnapshotLoses(cfg, h, tolerated, a, b, z);
    case SnapshotLocked => s := SnapshotLoses(cfg, h, tolerated, a, b, z);
    case _ => s := SubmitLoses(cfg, h, tolerated, a, b, z);
  }

  lemma HarmlessCrosses(k: int, tolerated: set<Hazard>, s: State, a: Action)
    requires forall z :: z in tolerated ==> Harmless(k, z)
    ensures Crosses(k, tolerated, s, a) <==> Crosses(k, {}, s, a)
  {
  }

  /** Every run that tolerates only harmless hazards is one that crosses none. */
  lemma {:induction false} HarmlessRuns(cfg: Config, h: NodeId, tolerated: set<Hazard>, acts: seq<Action>)
    requires forall z :: z in tolerated ==> Harmless(cfg.snapshotEvery, z)
    ensures Exec(CrossStep(cfg, h, tolerated), INIT, acts) == Exec(CrossStep(cfg, h, {}), INIT, acts)
    decreases |acts|
  {
    if acts != [] {
      var before, a := acts[..|acts| - 1], acts[|acts| - 1];
      HarmlessRuns(cfg, h, tolerated, before);
      if Exec(CrossStep(cfg, h, {}), INIT, before).Some? {
        HarmlessCrosses(cfg.snapshotEvery, tolerated, Exec(CrossStep(cfg, h, {}), INIT, before).value, a);
      }
    }
  }

  lemma HazardIsLoss(cfg: Config, h: NodeId, tolerated: set<Hazard>, a: Job, b: Job, z: Hazard)
    returns (acts: seq<Action>, s: State)
    requires cfg.am.Laws() && Differ(cfg.am, a, b) && z in tolerated && !Harmless(cfg.snapshotEvery, z)
    ensures Exec(CrossStep(cfg, h, tolerated), INIT, acts) == Some(s) && !NoLoss(cfg.am, h, s)
  {
    s := HazardLoses(cfg, h, tolerated, a, b, z);
    LosesIsLoss(cfg.am, h, s);
    acts :| Exec(CrossStep(cfg, h, tolerated), INIT, acts) == Some(s);
  }

  /** Deleting is safe exactly when it crosses no hazard: the runs whose deletes cross only the tolerated hazards never
      lose a change if and only if every tolerated hazard is a due save in a deployment without periodic snapshots.
      Any two payloads of which one carries a change the other does not are enough to lose it. */
  lemma NothingIsLostExactlyWhen(cfg: Config, h: NodeId, tolerated: set<Hazard>, a: Job, b: Job)
    requires cfg.am.Laws() && Differ(cfg.am, a, b)
    ensures (forall acts, s :: Exec(CrossStep(cfg, h, tolerated), INIT, acts) == Some(s) ==> NoLoss(cfg.am, h, s))
            <==> (forall z :: z in tolerated ==> Harmless(cfg.snapshotEvery, z))
  {
    if z :| z in tolerated && !Harmless(cfg.snapshotEvery, z) {
      var acts, s := HazardIsLoss(cfg, h, tolerated, a, b, z);
    } else {
      forall acts, s | Exec(CrossStep(cfg, h, tolerated), INIT, acts) == Some(s)
        ensures NoLoss(cfg.am, h, s)
      {
        HarmlessRuns(cfg, h, tolerated, acts);
        NothingIsLost(cfg, h, acts, s);
      }
    }
  }
}
