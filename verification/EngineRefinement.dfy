/** The engine's calls, as the object runs them, against the protocol: a submit, a snapshot or an export is a run of one
    goroutine, and any sequence of calls keeps cache, snapshots and log in agreement. */
module EngineRefinement {
  import opened Core
  import opened Crdt
  import opened Runs
  import opened EngineProtocol
  import opened EngineServer
  import opened EngineRuns
  import EngineCache
  import SqlStore
  import Transactions

  // ----- a call is a run of the protocol --------------------------------------------------------------------------

  /** A call may change nothing of any other goroutine's or node's. */
  ghost predicate OnlyCalled(s: State, s': State, g: Gid, node: NodeId, newCell: CellId) {
    && Only(s, s', g, CellFor(s, node, newCell))
    && (node in s'.entry ==> s'.entry[node] == CellFor(s, node, newCell))
    && forall n :: n != node ==> (n in s'.entry <==> n in s.entry) && (n in s.entry ==> s'.entry[n] == s.entry[n])
  }

  /** From s to s' goroutine g's submit ended with answer `ack`, leaving its node the view v. */
  ghost predicate Answered(s: State, s': State, g: Gid, node: NodeId, session: SessionId, payload: Bytes, v: View,
                           ack: Option<nat>) {
    && Seen(s', node, v.row) == v
    && g in s'.procs
    && s'.procs[g] == Proc(node, Submit(session, payload), if ack.None? then Failed else Acked(ack.value))
    && s'.announced == (if ack.None? then s.announced else s.announced + [Op(ack.value, session, payload)])
    && (forall d :: s'.announced == s.announced + OpsOf(Told(d, session, payload, ack)))
    && s'.acked == (if ack.None? then s.acked else s.acked + [Op(ack.value, session, payload)])
  }

  /** The document was opened: the view has the document cached. */
  lemma OpenedView(s: State, s': State, g: Gid, p: Proc, newCell: CellId, d: Doc, row: bool)
    requires Idle(s, p.node) && newCell !in s.cells
    requires var c := CellFor(s, p.node, newCell); s'.entry == s.entry[p.node := c] && HasIn(s, s', g, p, c, d, None)
    ensures Idle(s', p.node) && OnlyCalled(s, s', g, p.node, newCell)
    ensures Seen(s', p.node, row) == View(row, s'.log, s'.snaps, Some(d))
  {
  }

  /** It was not: only the goroutine's end is new. */
  lemma FailedView(s: State, s': State, g: Gid, p: Proc, newCell: CellId, row: bool)
    requires Idle(s, p.node) && s' == s.(procs := s.procs[g := p])
    ensures Idle(s', p.node) && OnlyCalled(s, s', g, p.node, newCell) && Seen(s', p.node, row) == Seen(s, p.node, row)
  {
  }

  lemma MergedRun(w: Setting, shape: Transactions.Shape, s: State, m: State, g: Gid, session: SessionId, payload: Bytes,
                  row: bool, newCell: CellId, d: Doc, f: Faults) returns (s': State)
    requires Idle(s, w.node) && newCell !in s.cells && w.At(m) && SameStore(s, m)
    requires var c := CellFor(s, w.node, newCell);
             m.entry == s.entry[w.node := c]
               && HasIn(s, m, g, Proc(w.node, Submit(session, payload), Applied(c)), c, d, Some(g))
    ensures w.At(s') && Idle(s', w.node) && OnlyCalled(s, s', g, w.node, newCell)
    ensures var (v, ack) := Committed(w.cfg, shape, Seen(s, w.node, row).(cached := Some(d)), session, payload, f);
            Answered(s, s', g, w.node, session, payload, v, ack)
  {
    var c := CellFor(s, w.node, newCell);
    if SqlStore.Fails(shape, row, f.append) {
      s' := RefuseRun(w, m, g, c);
    } else {
      s' := CommitRun(w, m, g, c, !f.save);
    }
    OpenedView(s, s', g, s'.procs[g], newCell, d, if SqlStore.Fails(shape, row, f.append) then row else true);
  }

  /** A submit made while nobody on the node holds the document's lock is a run of the protocol: it ends in the view and
      the answer the object computes, it announces exactly the entry it commits, and it leaves other goroutines and
      other nodes alone. */
  lemma SubmitIsARun(w: Setting, shape: Transactions.Shape, s: State, g: Gid, newCell: CellId, row: bool,
                     session: SessionId, payload: Bytes, f: Faults) returns (s': State)
    requires w.At(s) && g !in s.procs && Idle(s, w.node) && newCell !in s.cells
    ensures w.At(s') && Idle(s', w.node) && OnlyCalled(s, s', g, w.node, newCell)
    ensures var (v, ack) := Submitted(w.cfg, shape, Seen(s, w.node, row), session, payload, w.r, f);
            Answered(s, s', g, w.node, session, payload, v, ack)
  {
    var job, c := Submit(session, payload), CellFor(s, w.node, newCell);
    if payload == [] {
      s' := Start(s, g, w.node, job).value;
      Extend(w, s, DoStart(g, w.node, job), s');
      FailedView(s, s', g, s'.procs[g], newCell, row);
    } else {
      var s1 := HoldRun(w, s, g, job, newCell, row, f);
      if Opened(w.cfg.am, Seen(s, w.node, row), f).None? {
        s' := s1;
        FailedView(s, s', g, s'.procs[g], newCell, row);
      } else {
        var s2 := ApplyRun(w, s1, g, c);
        HasInThen(s, s1, s2, g, c, s1.procs[g], s2.procs[g], s1.cells[c].doc, s2.cells[c].doc, s1.cells[c].owner,
                  s2.cells[c].owner);
        s' := AppliedRun(w, shape, s, s2, g, newCell, row, session, payload, f);
      }
    }
  }

  lemma AppliedRun(w: Setting, shape: Transactions.Shape, s: State, m: State, g: Gid, newCell: CellId, row: bool,
                   session: SessionId, payload: Bytes, f: Faults) returns (s': State)
    requires Idle(s, w.node) && newCell !in s.cells && w.At(m) && SameStore(s, m)
    requires payload != [] && Opened(w.cfg.am, Seen(s, w.node, row), f).Some?
    requires var c, v := CellFor(s, w.node, newCell), Seen(s, w.node, row);
             var p, merged := Proc(w.node, Submit(session, payload), Failed), Merged(w.cfg, v, payload, w.r, f);
             && m.entry == s.entry[w.node := c]
             && (if merged.None? then HasIn(s, m, g, p, c, Opened(w.cfg.am, v, f).value, None)
                 else HasIn(s, m, g, p.(pc := Applied(c)), c, merged.value, Some(g)))
    ensures w.At(s') && Idle(s', w.node) && OnlyCalled(s, s', g, w.node, newCell)
    ensures var (v, ack) := Submitted(w.cfg, shape, Seen(s, w.node, row), session, payload, w.r, f);
            Answered(s, s', g, w.node, session, payload, v, ack)
  {
    var v := Seen(s, w.node, row);
    var merged := Merged(w.cfg, v, payload, w.r, f);
    if merged.None? {
      s' := m;
      OpenedView(s, s', g, s'.procs[g], newCell, Opened(w.cfg.am, v, f).value, row);
    } else {
      s' := MergedRun(w, shape, s, m, g, session, payload, row, newCell, merged.value, f);
    }
  }

  /** So is a manual snapshot, down to the number it returns. */
  lemma SnapshotIsARun(w: Setting, s: State, g: Gid, newCell: CellId, row: bool, f: Faults) returns (s': State)
    requires w.At(s) && g !in s.procs && Idle(s, w.node) && newCell !in s.cells
    ensures w.At(s') && Idle(s', w.node) && OnlyCalled(s, s', g, w.node, newCell)
    ensures s'.log == s.log && s'.announced == s.announced && s'.acked == s.acked
    ensures var (v, r) := ManuallySaved(w.cfg.am, Seen(s, w.node, row), f);
            && Seen(s', w.node, row) == v && g in s'.procs
            && s'.procs[g] == Proc(w.node, ManualSnapshot, if r.None? then Failed else SnapshotTaken(r.value))
  {
    var doc, c := Opened(w.cfg.am, Seen(s, w.node, row), f), CellFor(s, w.node, newCell);
    var s1 := HoldRun(w, s, g, ManualSnapshot, newCell, row, f);
    if doc.None? {
      s' := s1;
      FailedView(s, s', g, s'.procs[g], newCell, row);
    } else {
      var s2 := SizeRun(w, s1, g, c);
      HasInThen(s, s1, s2, g, c, s1.procs[g], s2.procs[g], doc.value, doc.value, Some(g), Some(g));
      s' := SaveManualRun(w, s2, g, c, !f.latest && !f.save && row);
      HasInThen(s, s2, s', g, c, s2.procs[g], s'.procs[g], doc.value, doc.value, Some(g), None);
      OpenedView(s, s', g, s'.procs[g], newCell, doc.value, row);
    }
  }

  /** And an export. */
  lemma ExportIsARun(w: Setting, s: State, g: Gid, newCell: CellId, row: bool, f: Faults) returns (s': State)
    requires w.At(s) && g !in s.procs && Idle(s, w.node) && newCell !in s.cells
    ensures w.At(s') && Idle(s', w.node) && OnlyCalled(s, s', g, w.node, newCell) && SameStore(s, s')
    ensures var doc := Opened(w.cfg.am, Seen(s, w.node, row), f);
            && Seen(s', w.node, row) == Seen(s, w.node, row).(cached := doc) && g in s'.procs
            && s'.procs[g] == Proc(w.node, Export, if doc.None? then Failed else Exported(doc.value))
  {
    var doc, c := Opened(w.cfg.am, Seen(s, w.node, row), f), CellFor(s, w.node, newCell);
    var s1 := HoldRun(w, s, g, Export, newCell, row, f);
    if doc.None? {
      s' := s1;
      FailedView(s, s', g, s'.procs[g], newCell, row);
    } else {
      s' := ExportRun(w, s1, g, c);
      HasInThen(s, s1, s', g, c, s1.procs[g], s'.procs[g], doc.value, doc.value, Some(g), None);
      OpenedView(s, s', g, s'.procs[g], newCell, doc.value, row);
    }
  }

  // ----- sequences of calls ---------------------------------------------------------------------------------------

  datatype Call =
    | CallSubmit(session: SessionId, payload: Bytes, r: Resolution, f: Faults)
    | CallSnapshot(f: Faults)
    | CallExport(f: Faults)
    | CallForget
    | CallDelete(fault: bool)

  /** A document's view, and the changes of payloads whose append failed after they had been merged. */
  datatype Life = Life(view: View, refused: set<Change>)

  const UNBORN := Life(View(false, [], map[], None), {})

  ghost function After(cfg: Config, shape: Transactions.Shape, l: Life, call: Call): Life {
    match call
    case CallSubmit(session, payload, r, f) =>
      var merged := Merged(cfg, l.view, payload, r, f);
      Life(Submitted(cfg, shape, l.view, session, payload, r, f).0,
           if merged.Some? && SqlStore.Fails(shape, l.view.row, f.append) then l.refused + Changes(cfg.am, payload)
             else l.refused)
    case CallSnapshot(f) => l.(view := ManuallySaved(cfg.am, l.view, f).0)
    case CallExport(f) => l.(view := l.view.(cached := Opened(cfg.am, l.view, f)))
    case CallForget => l.(view := l.view.(cached := None))
    case CallDelete(fault) => if fault || !l.view.row then l else UNBORN
  }

  ghost function Calls(cfg: Config, shape: Transactions.Shape): (Life, Call) -> Option<Life> {
    (l: Life, call: Call) =>
      if call.CallSubmit? && !EngineCache.Automatic(cfg.am, call.r) then None else Some(After(cfg, shape, l, call))
  }

  /** The store half of a life, as a protocol state. */
  ghost function Stored(l: Life): State {
    INIT.(log := l.view.log, snaps := l.view.snaps, refused := l.refused)
  }

  ghost predicate Between(am: Automerge, l: Life, d: Doc) {
    Fold(am, l.view.log) <= d <= Fold(am, l.view.log) + l.refused
  }

  ghost predicate Sound(am: Automerge, l: Life) {
    && Numbered(l.view.log)
    && (l.view.log != [] ==> l.view.row)
    && AllDecode(am, l.view.log)
    && EngineCache.Snapshots(am, Stored(l))
    && (l.view.cached.Some? ==> Between(am, l, l.view.cached.value))
  }

  /** Whatever opens the document gets the whole log. */
  lemma OpenedBetween(am: Automerge, l: Life, f: Faults)
    requires Sound(am, l)
    ensures Opened(am, l.view, f).Some? ==> Between(am, l, Opened(am, l.view, f).value)
    ensures !f.getSnapshot && !f.getOps ==> Opened(am, l.view, f).Some?
  {
    EngineCache.LoadedWhole(am, Stored(l));
  }

  lemma SnapshotsKept(am: Automerge, l: Life, l': Life)
    requires EngineCache.Snapshots(am, Stored(l))
    requires l.view.log <= l'.view.log && l.refused <= l'.refused
    requires forall n :: n in l'.view.snaps ==>
                           || (n in l.view.snaps && l'.view.snaps[n] == l.view.snaps[n])
                           || EngineCache.StandsFor(am, Stored(l'), l'.view.snaps[n], n)
    ensures EngineCache.Snapshots(am, Stored(l'))
  {
    forall n | n in l'.view.snaps
      ensures EngineCache.StandsFor(am, Stored(l'), l'.view.snaps[n], n)
    {
      if n in l.view.snaps && l'.view.snaps[n] == l.view.snaps[n] {
        EngineCache.StandsForKept(am, Stored(l), Stored(l'), l.view.snaps[n], n);
      }
    }
  }

  lemma SavedStands(am: Automerge, l: Life, d: Doc)
    requires am.Laws() && Between(am, l, d)
    ensures EngineCache.StandsFor(am, Stored(l), am.save(d), |l.view.log|)
  {
    assert l.view.log[..|l.view.log|] == l.view.log;
  }

  /** The append of a merged change is refused. */
  lemma RefusedKeepsSound(am: Automerge, l: Life, d: Doc, payload: Bytes)
    requires Sound(am, l) && Between(am, l, d)
    ensures Sound(am, Life(l.view.(cached := Some(d + Changes(am, payload))), l.refused + Changes(am, payload)))
  {
    SnapshotsKept(am, l, Life(l.view.(cached := Some(d + Changes(am, payload))), l.refused + Changes(am, payload)));
  }

  /** Or it is committed, and a snapshot may be saved under its number. */
  lemma LoggedKeepsSound(am: Automerge, l: Life, d: Doc, session: SessionId, payload: Bytes, save: bool)
    requires am.Laws() && Sound(am, l) && Between(am, l, d) && Decodes(am, payload)
    ensures var n, d' := |l.view.log| + 1, d + Changes(am, payload);
            Sound(am, Life(View(true, l.view.log + [Op(n, session, payload)],
                                if save then l.view.snaps[n := am.save(d')] else l.view.snaps, Some(d')), l.refused))
  {
    var n, d' := |l.view.log| + 1, d + Changes(am, payload);
    var op := Op(n, session, payload);
    var l' := Life(View(true, l.view.log + [op],
                        if save then l.view.snaps[n := am.save(d')] else l.view.snaps, Some(d')), l.refused);
    LogOneMore(am, l.view.log, op);
    FoldSnoc(am, l.view.log, op);
    assert Between(am, l', d');
    SavedStands(am, l', d');
    assert l.view.log <= l'.view.log;
    SnapshotsKept(am, l, l');
  }

  lemma LogOneMore(am: Automerge, log: seq<Op>, op: Op)
    requires Numbered(log) && AllDecode(am, log) && op.seqNo == |log| + 1 && Decodes(am, op.payload)
    ensures Numbered(log + [op]) && AllDecode(am, log + [op])
  {
  }

  lemma CommitKeepsSound(cfg: Config, shape: Transactions.Shape, l: Life, d: Doc, session: SessionId, payload: Bytes,
                         f: Faults)
    requires cfg.am.Laws() && Sound(cfg.am, l) && Between(cfg.am, l, d) && Decodes(cfg.am, payload)
    ensures var merged := l.view.(cached := Some(d + Changes(cfg.am, payload)));
            var refused := if SqlStore.Fails(shape, l.view.row, f.append) then l.refused + Changes(cfg.am, payload)
              else l.refused;
            Sound(cfg.am, Life(Committed(cfg, shape, merged, session, payload, f).0, refused))
  {
    RefusedKeepsSound(cfg.am, l, d, payload);
    LoggedKeepsSound(cfg.am, l, d, session, payload, SnapshotDue(cfg.snapshotEvery, |l.view.log| + 1) && !f.save);
  }

  /** A payload that does not merge leaves at most the opened document behind. */
  lemma NotMergedKeepsSound(cfg: Config, shape: Transactions.Shape, l: Life, session: SessionId, payload: Bytes,
                            r: Resolution, f: Faults)
    requires Sound(cfg.am, l) && Merged(cfg, l.view, payload, r, f).None?
    ensures Sound(cfg.am, After(cfg, shape, l, CallSubmit(session, payload, r, f)))
  {
    OpenedBetween(cfg.am, l, f);
    SnapshotsKept(cfg.am, l, After(cfg, shape, l, CallSubmit(session, payload, r, f)));
  }

  lemma SubmitKeepsSound(cfg: Config, shape: Transactions.Shape, l: Life, session: SessionId, payload: Bytes,
                         r: Resolution, f: Faults)
    requires cfg.am.Laws() && Sound(cfg.am, l) && EngineCache.Automatic(cfg.am, r)
    ensures Sound(cfg.am, After(cfg, shape, l, CallSubmit(session, payload, r, f)))
  {
    if Merged(cfg, l.view, payload, r, f).None? {
      NotMergedKeepsSound(cfg, shape, l, session, payload, r, f);
    } else {
      OpenedBetween(cfg.am, l, f);
      var d := Opened(cfg.am, l.view, f).value;
      assert Merged(cfg, l.view, payload, r, f) == Some(d + Changes(cfg.am, payload));
      CommitKeepsSound(cfg, shape, l, d, session, payload, f);
    }
  }

  lemma SnapshotKeepsSound(cfg: Config, shape: Transactions.Shape, l: Life, f: Faults)
    requires cfg.am.Laws() && Sound(cfg.am, l)
    ensures Sound(cfg.am, After(cfg, shape, l, CallSnapshot(f)))
  {
    var l' := After(cfg, shape, l, CallSnapshot(f));
    OpenedBetween(cfg.am, l, f);
    if Opened(cfg.am, l.view, f).Some? { SavedStands(cfg.am, l', Opened(cfg.am, l.view, f).value); }
    SnapshotsKept(cfg.am, l, l');
  }

  lemma CallKeepsSound(cfg: Config, shape: Transactions.Shape, l: Life, call: Call)
    requires cfg.am.Laws() && Sound(cfg.am, l) && (call.CallSubmit? ==> EngineCache.Automatic(cfg.am, call.r))
    ensures Sound(cfg.am, After(cfg, shape, l, call))
  {
    match call
    case CallSubmit(session, payload, r, f) => SubmitKeepsSound(cfg, shape, l, session, payload, r, f);
    case CallSnapshot(f) => SnapshotKeepsSound(cfg, shape, l, f);
    case CallExport(f) => OpenedBetween(cfg.am, l, f);
    case CallForget =>
    case CallDelete(_) =>
  }

  lemma ReachableSound(cfg: Config, shape: Transactions.Shape, calls: seq<Call>)
    requires cfg.am.Laws()
    ensures var end := Exec(Calls(cfg, shape), UNBORN, calls); end.Some? ==> Sound(cfg.am, end.value)
  {
    forall m: Life, call: Call | Sound(cfg.am, m) && Calls(cfg, shape)(m, call).Some?
      ensures Sound(cfg.am, Calls(cfg, shape)(m, call).value)
    {
      CallKeepsSound(cfg, shape, m, call);
    }
    Invariance(Calls(cfg, shape), (m: Life) => Sound(cfg.am, m), UNBORN, calls);
  }

  /** After any sequence of calls on the object, whatever store calls failed on the way, the log is numbered without a
      gap, the cached document is the log up to refused payloads, and so is the document a restarted engine loads. */
  lemma CallsKeepTheDocument(cfg: Config, shape: Transactions.Shape, calls: seq<Call>, l: Life, f: Faults)
    requires cfg.am.Laws() && Exec(Calls(cfg, shape), UNBORN, calls) == Some(l)
    ensures Numbered(l.view.log)
    ensures l.view.cached.Some? ==> Between(cfg.am, l, l.view.cached.value)
    ensures var reloaded := Opened(cfg.am, l.view.(cached := None), f);
            if f.getSnapshot || f.getOps then reloaded.None? else reloaded.Some? && Between(cfg.am, l, reloaded.value)
  {
    ReachableSound(cfg, shape, calls);
    OpenedBetween(cfg.am, l.(view := l.view.(cached := None)), f);
  }

  /** And once nothing fails any more, the calls succeed: under either locking shape and from the empty store on, a
      submit of a payload that decodes is acked with the next number, a manual snapshot of a document that has been
      written is taken under the latest one, and an export opens the document. */
  lemma CallsSucceed(cfg: Config, shape: Transactions.Shape, calls: seq<Call>, l: Life, session: SessionId,
                     payload: Bytes, r: Resolution)
    requires cfg.am.Laws() && Exec(Calls(cfg, shape), UNBORN, calls) == Some(l)
    requires payload != [] && Decodes(cfg.am, payload)
    ensures Openable(cfg.am, l.view)
    ensures Submitted(cfg, shape, l.view, session, payload, r, ALL_SUCCEED).1 == Some(|l.view.log| + 1)
    ensures l.view.log != [] ==> ManuallySaved(cfg.am, l.view, ALL_SUCCEED).1 == Some(|l.view.log|)
    ensures Opened(cfg.am, l.view, ALL_SUCCEED).Some?
  {
    ReachableSound(cfg, shape, calls);
    OpenedBetween(cfg.am, l, ALL_SUCCEED);
    SubmittedSucceeds(cfg, shape, l.view, session, payload, r);
    SubmittedExtends(cfg, shape, l.view, session, payload, r, ALL_SUCCEED);
  }
}
