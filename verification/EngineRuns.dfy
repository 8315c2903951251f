/** Building runs of the engine protocol, one goroutine at a time: each lemma extends a run by some regions of one
    goroutine and says what they change. */
module EngineRuns {
  import opened Core
  import opened Crdt
  import opened Runs
  import opened EngineProtocol
  import opened EngineServer
  import opened EngineCache

  // ----- runs under a restricted step -----------------------------------------------------------------------------

  /** An action of a goroutine, started on `node`, for which the resolver does r. */
  predicate Ordinary(node: NodeId, r: Resolution, a: Action) {
    !a.DoDelete? && !a.DoForget? && !a.DoCrash? && (a.DoStart? ==> a.node == node) && (a.DoApply? ==> a.r == r)
  }

  /** Runs of `step` from `start`. `step` may forbid deletes, forgets and crashes, but no ordinary action. */
  datatype Setting = Setting(cfg: Config, node: NodeId, r: Resolution, step: (State, Action) -> Option<State>,
                             start: State)
  {
    ghost predicate Allows() {
      forall m: State, a: Action :: Ordinary(node, r, a) ==> step(m, a) == Step(cfg, m, a)
    }

    ghost predicate At(s: State) {
      Allows() && exists acts :: Exec(step, start, acts) == Some(s)
    }
  }

  ghost function AnyStep(cfg: Config): (State, Action) -> Option<State> {
    (s, a) => Step(cfg, s, a)
  }

  lemma AtStart(w: Setting)
    requires w.Allows()
    ensures w.At(w.start)
  {
    assert Exec(w.step, w.start, []) == Some(w.start);
  }

  lemma Extend(w: Setting, s: State, a: Action, s': State)
    requires w.At(s) && w.step(s, a) == Some(s')
    ensures w.At(s')
  {
    var acts :| Exec(w.step, w.start, acts) == Some(s);
    Then(w.step, w.start, acts, s, a, s');
  }

  // ----- what a stretch of a run leaves alone ---------------------------------------------------------------------

  /** At most goroutine g and docState c changed. */
  ghost predicate Only(s: State, s': State, g: Gid, c: CellId) {
    && g in s'.procs
    && (forall x :: x != g ==> (x in s'.procs <==> x in s.procs) && (x in s.procs ==> s'.procs[x] == s.procs[x]))
    && (forall x :: x != c ==> (x in s'.cells <==> x in s.cells) && (x in s.cells ==> s'.cells[x] == s.cells[x]))
  }

  ghost predicate SameStore(s: State, s': State) {
    s'.log == s.log && s'.snaps == s.snaps && s'.announced == s.announced && s'.acked == s.acked
      && s'.created == s.created
  }

  /** Goroutine g is at pc with docState c, which holds d; `s` is where it started from. */
  ghost predicate HasIn(s: State, s': State, g: Gid, p: Proc, c: CellId, d: Doc, owner: Option<Gid>) {
    && Only(s, s', g, c) && s'.procs[g] == p
    && c in s'.cells && s'.cells[c].doc == d && s'.cells[c].owner == owner
  }

  /** Nobody on the node holds the document's lock. */
  ghost predicate Idle(s: State, node: NodeId) {
    node in s.entry ==> s.entry[node] in s.cells && s.cells[s.entry[node]].owner.None?
  }

  /** What node `node` sees of the document. */
  ghost function Seen(s: State, node: NodeId, row: bool): View {
    View(row, s.log, s.snaps, if Cached(node, s) then Some(CachedDoc(node, s)) else None)
  }

  ghost function CellFor(s: State, node: NodeId, newCell: CellId): CellId {
    if node in s.entry then s.entry[node] else newCell
  }

  // ----- from the start of a call to the docState in hand ---------------------------------------------------------

  /** A call that finds no entry, up to the read of the newest snapshot. */
  lemma StartRun(w: Setting, s: State, g: Gid, job: Job) returns (s': State)
    requires w.At(s)
    requires g !in s.procs && w.node !in s.entry && (job.Submit? ==> job.payload != [])
    ensures w.At(s') && s' == s.(procs := s.procs[g := Proc(w.node, job, ReadSnapshot)])
  {
    var s1 := Start(s, g, w.node, job).value;
    Extend(w, s, DoStart(g, w.node, job), s1);
    s' := LookUp(s1, g).value;
    Extend(w, s1, DoLookup(g), s');
    assert s'.procs == s.procs[g := Proc(w.node, job, ReadSnapshot)];
  }

  /** The read of the snapshot. */
  lemma ReadRun(w: Setting, s: State, g: Gid, ok: bool) returns (s': State)
    requires w.At(s) && g in s.procs && s.procs[g].pc.ReadSnapshot?
    ensures w.At(s')
    ensures s'
            == s.(procs := s.procs[g := s.procs[g].(pc := if ok then ReadOps(SnapState(s.snaps), SnapSeq(s.snaps))
                                                    else Failed)])
  {
    s' := GetSnapshot(s, g, ok).value;
    Extend(w, s, DoReadSnapshot(g, ok), s');
  }

  /** The read of the operations. */
  lemma TailRun(w: Setting, s: State, g: Gid, ok: bool) returns (s': State)
    requires w.At(s) && g in s.procs && s.procs[g].pc.ReadOps?
    ensures w.At(s')
    ensures var doc := Rehydrated(w.cfg.am, s.procs[g].pc.base, Since(s.log, s.procs[g].pc.atSeq));
            s' == s.(procs := s.procs[g := s.procs[g].(pc := if ok && doc.Some? then Install(doc.value, |s.log|)
                                                       else Failed)])
  {
    s' := GetOps(w.cfg.am, s, g, ok).value;
    Extend(w, s, DoReadOps(g, ok), s');
  }

  /** Loading from the store, up to the second look into the map. */
  lemma LoadRun(w: Setting, s: State, g: Gid, job: Job, f: Faults) returns (s': State)
    requires w.At(s)
    requires g !in s.procs && w.node !in s.entry && (job.Submit? ==> job.payload != [])
    ensures w.At(s')
    ensures var doc := Opened(w.cfg.am, Seen(s, w.node, true), f);
            s' == s.(procs := s.procs[g := Proc(w.node, job,
                                                if doc.None? then Failed else Install(doc.value, |s.log|))])
  {
    var s1 := StartRun(w, s, g, job);
    var s2 := ReadRun(w, s1, g, !f.getSnapshot);
    if f.getSnapshot {
      s' := s2;
    } else {
      s' := TailRun(w, s2, g, !f.getOps);
    }
    assert s'.procs == s.procs[g := s'.procs[g]];
  }

  /** The second look finds no entry: what was loaded is installed. */
  lemma InstallRun(w: Setting, s: State, g: Gid, newCell: CellId) returns (s': State)
    requires w.At(s) && g in s.procs && s.procs[g].pc.Install? && s.procs[g].node !in s.entry && newCell !in s.cells
    ensures w.At(s') && SameStore(s, s') && s'.entry == s.entry[s.procs[g].node := newCell]
    ensures HasIn(s, s', g, s.procs[g].(pc := Acquire(newCell)), newCell, s.procs[g].pc.doc, None)
  {
    s' := InstallDoc(s, g, newCell).value;
    Extend(w, s, DoInstall(g, newCell), s');
  }

  /** From the start of a call to the docState in hand, or to a failed load. */
  lemma OpenRun(w: Setting, s: State, g: Gid, job: Job, newCell: CellId, row: bool, f: Faults) returns (s': State)
    requires w.At(s)
    requires g !in s.procs && Idle(s, w.node) && newCell !in s.cells && (job.Submit? ==> job.payload != [])
    ensures w.At(s') && SameStore(s, s')
    ensures var doc, c := Opened(w.cfg.am, Seen(s, w.node, row), f), CellFor(s, w.node, newCell);
            if doc.None? then s' == s.(procs := s.procs[g := Proc(w.node, job, Failed)])
            else s'.entry == s.entry[w.node := c] && HasIn(s, s', g, Proc(w.node, job, Acquire(c)), c, doc.value, None)
  {
    if w.node in s.entry {
      s' := FoundRun(w, s, g, job);
    } else {
      var s1 := LoadRun(w, s, g, job, f);
      if s1.procs[g].pc.Failed? {
        s' := s1;
      } else {
        s' := InstallRun(w, s1, g, newCell);
      }
    }
  }

  lemma FoundRun(w: Setting, s: State, g: Gid, job: Job) returns (s': State)
    requires w.At(s)
    requires g !in s.procs && Idle(s, w.node) && w.node in s.entry && (job.Submit? ==> job.payload != [])
    ensures w.At(s') && SameStore(s, s') && s'.entry == s.entry[w.node := s.entry[w.node]]
    ensures HasIn(s, s', g, Proc(w.node, job, Acquire(s.entry[w.node])), s.entry[w.node], s.cells[s.entry[w.node]].doc,
                  None)
  {
    var s1 := Start(s, g, w.node, job).value;
    Extend(w, s, DoStart(g, w.node, job), s1);
    s' := LookUp(s1, g).value;
    Extend(w, s1, DoLookup(g), s');
  }

  // ----- with the docState in hand --------------------------------------------------------------------------------

  /** At a place with docState c. */
  ghost predicate With(s: State, g: Gid, c: CellId) {
    g in s.procs && HasCell(s.procs[g].pc) && s.procs[g].pc.cell == c && c in s.cells
  }

  lemma LockRun(w: Setting, s: State, g: Gid, c: CellId) returns (s': State)
    requires w.At(s) && With(s, g, c) && s.procs[g].pc.Acquire? && s.cells[c].owner.None?
    ensures w.At(s') && SameStore(s, s') && s'.entry == s.entry
    ensures HasIn(s, s', g, s.procs[g].(pc := Locked(c)), c, s.cells[c].doc, Some(g))
  {
    s' := AcquireLock(s, g).value;
    Extend(w, s, DoAcquire(g), s');
  }

  /** Two stretches of the same goroutine with the same docState. */
  lemma HasInThen(s: State, m: State, s': State, g: Gid, c: CellId, p: Proc, p': Proc, d: Doc, d': Doc, o: Option<Gid>,
                  o': Option<Gid>)
    requires HasIn(s, m, g, p, c, d, o) && HasIn(m, s', g, p', c, d', o')
    ensures HasIn(s, s', g, p', c, d', o')
  {
  }

  /** From the start of a call to the lock. */
  lemma HoldRun(w: Setting, s: State, g: Gid, job: Job, newCell: CellId, row: bool, f: Faults) returns (s': State)
    requires w.At(s)
    requires g !in s.procs && Idle(s, w.node) && newCell !in s.cells && (job.Submit? ==> job.payload != [])
    ensures w.At(s') && SameStore(s, s')
    ensures var doc, c := Opened(w.cfg.am, Seen(s, w.node, row), f), CellFor(s, w.node, newCell);
            if doc.None? then s' == s.(procs := s.procs[g := Proc(w.node, job, Failed)])
            else s'.entry == s.entry[w.node := c]
                 && HasIn(s, s', g, Proc(w.node, job, Locked(c)), c, doc.value, Some(g))
  {
    var doc, c := Opened(w.cfg.am, Seen(s, w.node, row), f), CellFor(s, w.node, newCell);
    var s1 := OpenRun(w, s, g, job, newCell, row, f);
    if doc.None? {
      s' := s1;
    } else {
      s' := LockRun(w, s1, g, c);
      HasInThen(s, s1, s', g, c, s1.procs[g], s'.procs[g], doc.value, doc.value, None, Some(g));
    }
  }

  lemma ApplyRun(w: Setting, s: State, g: Gid, c: CellId) returns (s': State)
    requires w.At(s) && With(s, g, c) && s.procs[g].pc.Locked? && s.procs[g].job.Submit? && s.cells[c].owner == Some(g)
    ensures w.At(s') && SameStore(s, s') && s'.entry == s.entry
    ensures var d, doc := s.cells[c].doc, ApplyChange(w.cfg.am, s.cells[c].doc, s.procs[g].job.payload, w.r);
            if doc.None? then HasIn(s, s', g, s.procs[g].(pc := Failed), c, d, None)
            else HasIn(s, s', g, s.procs[g].(pc := Applied(c)), c, doc.value, Some(g))
  {
    s' := Apply(w.cfg.am, s, g, w.r).value;
    Extend(w, s, DoApply(g, w.r), s');
  }

  /** The commit and its event. */
  lemma AppendRun(w: Setting, s: State, g: Gid, c: CellId) returns (s': State)
    requires w.At(s) && With(s, g, c) && s.procs[g].pc.Applied? && s.procs[g].job.Submit?
    ensures w.At(s') && s'.entry == s.entry
    ensures HasIn(s, s', g, s.procs[g].(pc := Appended(c, |s.log| + 1)), c, s.cells[c].doc, s.cells[c].owner)
    ensures s'.log == s.log + [OpOf(s.procs[g], |s.log| + 1)]
    ensures s'.snaps == s.snaps && s'.announced == s.announced && s'.acked == s.acked && s'.refused == s.refused
    ensures s'.created == s.created
  {
    s' := Append(w.cfg.am, s, g, true).value;
    Extend(w, s, DoAppend(g, true), s');
  }

  lemma EmitRun(w: Setting, s: State, g: Gid, c: CellId) returns (s': State)
    requires w.At(s) && With(s, g, c) && s.procs[g].pc.Appended?
    ensures w.At(s') && s'.log == s.log && s'.snaps == s.snaps && s'.announced == s.announced && s'.acked == s.acked
    ensures s'.entry == s.entry && s'.refused == s.refused
    ensures HasIn(s, s', g, s.procs[g].(pc := Emitted(c, s.procs[g].pc.seqNo)), c, s.cells[c].doc, s.cells[c].owner)
  {
    s' := Emit(s, g).value;
    Extend(w, s, DoEmit(g), s');
  }

  lemma SaveRun(w: Setting, s: State, g: Gid, c: CellId, ok: bool) returns (s': State)
    requires w.At(s) && With(s, g, c) && s.procs[g].pc.Emitted?
    ensures w.At(s') && s'.entry == s.entry
    ensures HasIn(s, s', g, s.procs[g].(pc := Saved(c, s.procs[g].pc.seqNo)), c, s.cells[c].doc, s.cells[c].owner)
    ensures s'.log == s.log && s'.announced == s.announced && s'.acked == s.acked && s'.refused == s.refused
    ensures s'.snaps == if ok && SnapshotDue(w.cfg.snapshotEvery, s.procs[g].pc.seqNo)
                        then s.snaps[s.procs[g].pc.seqNo := w.cfg.am.save(s.cells[c].doc)] else s.snaps
  {
    s' := Save(w.cfg, s, g, ok).value;
    Extend(w, s, DoSave(g, ok), s');
  }

  /** The broadcast and the ack. */
  lemma AnswerRun(w: Setting, s: State, g: Gid, c: CellId) returns (s': State)
    requires w.At(s) && With(s, g, c) && s.procs[g].pc.Saved? && s.procs[g].job.Submit?
    ensures w.At(s') && s'.entry == s.entry && s'.log == s.log && s'.snaps == s.snaps && s'.refused == s.refused
    ensures HasIn(s, s', g, s.procs[g].(pc := Acked(s.procs[g].pc.seqNo)), c, s.cells[c].doc, None)
    ensures var op := OpOf(s.procs[g], s.procs[g].pc.seqNo);
            s'.announced == s.announced + [op] && s'.acked == s.acked + [op]
  {
    var s1 := Publish(s, g).value;
    Extend(w, s, DoPublish(g), s1);
    s' := Return(s1, g).value;
    Extend(w, s1, DoReturn(g), s');
  }

  lemma RefuseRun(w: Setting, s: State, g: Gid, c: CellId) returns (s': State)
    requires w.At(s) && With(s, g, c) && s.procs[g].pc.Applied? && s.procs[g].job.Submit?
    ensures w.At(s') && SameStore(s, s') && s'.entry == s.entry
    ensures HasIn(s, s', g, s.procs[g].(pc := Failed), c, s.cells[c].doc, None)
  {
    s' := Append(w.cfg.am, s, g, false).value;
    Extend(w, s, DoAppend(g, false), s');
  }

  /** From the merge to the answer. */
  lemma CommitRun(w: Setting, s: State, g: Gid, c: CellId, save: bool) returns (s': State)
    requires w.At(s) && With(s, g, c) && s.procs[g].pc.Applied? && s.procs[g].job.Submit?
    ensures w.At(s') && s'.entry == s.entry && s'.refused == s.refused
    ensures HasIn(s, s', g, s.procs[g].(pc := Acked(|s.log| + 1)), c, s.cells[c].doc, None)
    ensures var n, op := |s.log| + 1, OpOf(s.procs[g], |s.log| + 1);
            && s'.log == s.log + [op] && s'.announced == s.announced + [op] && s'.acked == s.acked + [op]
            && s'.snaps
               == if save && SnapshotDue(w.cfg.snapshotEvery, n) then s.snaps[n := w.cfg.am.save(s.cells[c].doc)]
                 else s.snaps
  {
    var s1 := AppendRun(w, s, g, c);
    var s2 := EmitRun(w, s1, g, c);
    var s3 := SaveRun(w, s2, g, c, save);
    s' := AnswerRun(w, s3, g, c);
  }

  /** A manual snapshot reads the log's length. */
  lemma SizeRun(w: Setting, s: State, g: Gid, c: CellId) returns (s': State)
    requires w.At(s) && With(s, g, c) && s.procs[g].pc.Locked? && s.procs[g].job.ManualSnapshot?
    ensures w.At(s') && SameStore(s, s') && s'.entry == s.entry
    ensures HasIn(s, s', g, s.procs[g].(pc := Sized(c, |s.log|)), c, s.cells[c].doc, s.cells[c].owner)
  {
    s' := GetLatest(s, g).value;
    Extend(w, s, DoLatest(g), s');
  }

  lemma SaveManualRun(w: Setting, s: State, g: Gid, c: CellId, ok: bool) returns (s': State)
    requires w.At(s) && With(s, g, c) && s.procs[g].pc.Sized?
    ensures w.At(s') && s'.entry == s.entry
    ensures HasIn(s, s', g, s.procs[g].(pc := if ok then SnapshotTaken(s.procs[g].pc.latest) else Failed), c,
                  s.cells[c].doc, None)
    ensures s'.log == s.log && s'.announced == s.announced && s'.acked == s.acked
    ensures s'.snaps == if ok then s.snaps[s.procs[g].pc.latest := w.cfg.am.save(s.cells[c].doc)] else s.snaps
  {
    s' := SaveManual(w.cfg.am, s, g, ok).value;
    Extend(w, s, DoSaveManual(g, ok), s');
  }

  lemma ExportRun(w: Setting, s: State, g: Gid, c: CellId) returns (s': State)
    requires w.At(s) && With(s, g, c) && s.procs[g].pc.Locked? && s.procs[g].job.Export?
    ensures w.At(s') && SameStore(s, s') && s'.entry == s.entry
    ensures HasIn(s, s', g, s.procs[g].(pc := Exported(s.cells[c].doc)), c, s.cells[c].doc, None)
  {
    s' := ExportDoc(s, g).value;
    Extend(w, s, DoExport(g), s');
  }
}
