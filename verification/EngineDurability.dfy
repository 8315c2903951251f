/** What holds of the engine for any number of nodes: the log is gap-free, nothing is announced before it is
    durable, nothing is acked before it is announced, and the created event fires at most once per life. */
module EngineDurability {
  import opened Core
  import opened Crdt
  import opened Runs
  import opened EngineProtocol

  /** A delete crosses no goroutine that carries a number of the old life: none between commit and ack, and no manual
      snapshot that has read the log's length, unless it was 0. Everything else may be in flight. */
  ghost predicate Quiescent(s: State, a: Action) {
    a.DoDelete? ==>
      forall g :: g in s.procs ==> !Committing(s.procs[g].pc) && (s.procs[g].pc.Sized? ==> s.procs[g].pc.latest == 0)
  }

  ghost function QuietStep(cfg: Config): (State, Action) -> Option<State> {
    (s, a) => if Quiescent(s, a) then Step(cfg, s, a) else None
  }

  /** The goroutine has a committed op: the entry at its sequence number is its own session and payload. */
  ghost predicate OwnsEntry(log: seq<Op>, p: Proc, n: nat) {
    p.job.Submit? && 1 <= n <= |log| && log[n - 1] == OpOf(p, n)
  }

  ghost predicate ProcsOk(log: seq<Op>, procs: map<Gid, Proc>) {
    && (forall g :: g in procs && Committing(procs[g].pc) ==> OwnsEntry(log, procs[g], procs[g].pc.seqNo))
    && (forall g :: g in procs && procs[g].pc.Sized? ==> procs[g].pc.latest <= |log|)
    && (forall g, g' :: g in procs && g' in procs && g != g' && Committing(procs[g].pc) && Committing(procs[g'].pc)
                        ==> procs[g].pc.seqNo != procs[g'].pc.seqNo)
  }

  /** Every op of a history is the log's entry at its number. */
  ghost predicate Logged(log: seq<Op>, ops: seq<Op>) {
    forall i :: 0 <= i < |ops| ==> 1 <= ops[i].seqNo <= |log| && log[ops[i].seqNo - 1] == ops[i]
  }

  ghost predicate Distinct(ops: seq<Op>) {
    forall i, j :: 0 <= i < j < |ops| ==> ops[i].seqNo != ops[j].seqNo
  }

  /** Nobody who still has to announce has a number that was announced already. */
  ghost predicate AnnouncedOk(log: seq<Op>, announced: seq<Op>, procs: map<Gid, Proc>) {
    && Logged(log, announced) && Distinct(announced)
    && (forall i, g :: 0 <= i < |announced| && g in procs && Committing(procs[g].pc) && !procs[g].pc.Published?
                       ==> announced[i].seqNo != procs[g].pc.seqNo)
  }

  /** Nobody who still has to ack has a number that was acked already. */
  ghost predicate AckedOk(log: seq<Op>, acked: seq<Op>, procs: map<Gid, Proc>) {
    && Logged(log, acked) && Distinct(acked)
    && (forall i, g :: 0 <= i < |acked| && g in procs && Committing(procs[g].pc) ==>
                         acked[i].seqNo != procs[g].pc.seqNo)
    && (forall g :: g in procs && procs[g].pc.Acked? ==>
                      procs[g].job.Submit? && OpOf(procs[g], procs[g].pc.seqNo) in acked)
  }

  /** Acks follow broadcasts. */
  ghost predicate AnnouncedFirst(announced: seq<Op>, acked: seq<Op>, procs: map<Gid, Proc>) {
    && (forall op :: op in acked ==> op in announced)
    && (forall g :: g in procs && procs[g].pc.Published? ==>
                      procs[g].job.Submit? && OpOf(procs[g], procs[g].pc.seqNo) in announced)
  }

  /** A submit has committed entry 1 and not yet fired the created event. */
  ghost predicate Birth(procs: map<Gid, Proc>) {
    exists g :: g in procs && Unborn(procs[g].pc)
  }

  /** The created event has fired once if entry 1 is there, its submit got past the event, and no crash prevented it;
      otherwise it has not fired. */
  ghost predicate CreatedOk(log: seq<Op>, created: nat, silenced: bool, procs: map<Gid, Proc>) {
    && created == (if log != [] && !silenced && !Birth(procs) then 1 else 0)
    && (silenced ==> log != [] && !Birth(procs))
  }

  ghost predicate SnapsWithin(s: State) {
    forall n :: n in s.snaps ==> n <= |s.log|
  }

  ghost predicate Durable(s: State) {
    && Numbered(s.log) && SnapsWithin(s) && ProcsOk(s.log, s.procs) && CreatedOk(s.log, s.created, s.silenced, s.procs)
    && AnnouncedOk(s.log, s.announced, s.procs) && AckedOk(s.log, s.acked, s.procs)
       && AnnouncedFirst(s.announced, s.acked, s.procs)
  }

  /** A step that only moves goroutine g, to a place with no number of its own, and touches neither log nor history. */
  ghost predicate Moves(s: State, s': State, g: Gid, p: Proc) {
    && s'.procs == s.procs[g := p]
    && !Committing(p.pc) && !p.pc.Acked? && (p.pc.Sized? ==> p.pc.latest <= |s.log|)
    && s'.log == s.log && s'.announced == s.announced && s'.acked == s.acked && s'.created == s.created
       && s'.silenced == s.silenced
    && (g in s.procs ==> !s.procs[g].pc.Appended?)
    && SnapsWithin(s')
  }

  lemma MoveKeepsDurable(s: State, s': State, g: Gid, p: Proc)
    requires Durable(s) && Moves(s, s', g, p)
    ensures Durable(s')
  {
    BirthKept(s.procs, g, p);
  }

  /** A goroutine moves neither from nor to the commit of entry 1. */
  lemma BirthKept(procs: map<Gid, Proc>, g: Gid, p: Proc)
    requires (g in procs ==> !Unborn(procs[g].pc)) && !Unborn(p.pc)
    ensures Birth(procs[g := p]) <==> Birth(procs)
  {
    if Birth(procs) {
      var x :| x in procs && Unborn(procs[x].pc);
      assert x in procs[g := p] && procs[g := p][x] == procs[x];
    }
  }

  /** The commit of entry 1, and of any other. */
  lemma CommitKeepsCreated(log: seq<Op>, op: Op, created: nat, silenced: bool, procs: map<Gid, Proc>, g: Gid, p: Proc)
    requires CreatedOk(log, created, silenced, procs) && ProcsOk(log, procs)
    requires g in procs && !procs[g].pc.Appended? && p.pc.Appended? && p.pc.seqNo == |log| + 1
    ensures CreatedOk(log + [op], created, silenced, procs[g := p])
  {
    if log == [] {
      assert procs[g := p][g] == p && Birth(procs[g := p]);
    } else {
      BirthKept(procs, g, p);
    }
  }

  /** The created event. */
  lemma EmitKeepsCreated(log: seq<Op>, created: nat, silenced: bool, procs: map<Gid, Proc>, g: Gid, p: Proc)
    requires CreatedOk(log, created, silenced, procs) && ProcsOk(log, procs)
    requires g in procs && procs[g].pc.Appended? && !p.pc.Appended?
    ensures CreatedOk(log, if procs[g].pc.seqNo == 1 then created + 1 else created, silenced, procs[g := p])
  {
    assert OwnsEntry(log, procs[g], procs[g].pc.seqNo);
    if procs[g].pc.seqNo == 1 {
      assert Birth(procs);
      assert !Birth(procs[g := p]);
    } else {
      BirthKept(procs, g, p);
    }
  }

  lemma StartKeepsDurable(s: State, g: Gid, node: NodeId, job: Job)
    requires Durable(s) && Start(s, g, node, job).Some?
    ensures Durable(Start(s, g, node, job).value)
  {
    var s' := Start(s, g, node, job).value;
    MoveKeepsDurable(s, s', g, s'.procs[g]);
  }

  lemma LookUpKeepsDurable(s: State, g: Gid)
    requires Durable(s) && LookUp(s, g).Some?
    ensures Durable(LookUp(s, g).value)
  {
    var s' := LookUp(s, g).value;
    MoveKeepsDurable(s, s', g, s'.procs[g]);
  }

  lemma ReadKeepsDurable(am: Automerge, s: State, g: Gid, ok: bool)
    requires Durable(s)
    ensures GetSnapshot(s, g, ok).Some? ==> Durable(GetSnapshot(s, g, ok).value)
    ensures GetOps(am, s, g, ok).Some? ==> Durable(GetOps(am, s, g, ok).value)
  {
    if GetSnapshot(s, g, ok).Some? {
      var s' := GetSnapshot(s, g, ok).value;
      MoveKeepsDurable(s, s', g, s'.procs[g]);
    } else if GetOps(am, s, g, ok).Some? {
      var s' := GetOps(am, s, g, ok).value;
      MoveKeepsDurable(s, s', g, s'.procs[g]);
    }
  }

  lemma InstallKeepsDurable(s: State, g: Gid, newCell: CellId)
    requires Durable(s) && InstallDoc(s, g, newCell).Some?
    ensures Durable(InstallDoc(s, g, newCell).value)
  {
    var s' := InstallDoc(s, g, newCell).value;
    InstallMoves(s, g, newCell, s');
    MoveKeepsDurable(s, s', g, s'.procs[g]);
  }

  lemma InstallMoves(s: State, g: Gid, newCell: CellId, s': State)
    requires SnapsWithin(s) && InstallDoc(s, g, newCell) == Some(s')
    ensures g in s'.procs && Moves(s, s', g, s'.procs[g])
  {
  }

  lemma AcquireKeepsDurable(s: State, g: Gid)
    requires Durable(s) && AcquireLock(s, g).Some?
    ensures Durable(AcquireLock(s, g).value)
  {
    var s' := AcquireLock(s, g).value;
    MoveKeepsDurable(s, s', g, s'.procs[g]);
  }

  lemma ApplyKeepsDurable(am: Automerge, s: State, g: Gid, r: Resolution)
    requires Durable(s) && Apply(am, s, g, r).Some?
    ensures Durable(Apply(am, s, g, r).value)
  {
    var s' := Apply(am, s, g, r).value;
    MoveKeepsDurable(s, s', g, s'.procs[g]);
  }

  lemma GetLatestKeepsDurable(s: State, g: Gid)
    requires Durable(s) && GetLatest(s, g).Some?
    ensures Durable(GetLatest(s, g).value)
  {
    var s' := GetLatest(s, g).value;
    MoveKeepsDurable(s, s', g, s'.procs[g]);
  }

  lemma SaveManualKeepsDurable(am: Automerge, s: State, g: Gid, ok: bool)
    requires Durable(s) && SaveManual(am, s, g, ok).Some?
    ensures Durable(SaveManual(am, s, g, ok).value)
  {
    var s' := SaveManual(am, s, g, ok).value;
    MoveKeepsDurable(s, s', g, s'.procs[g]);
  }

  lemma ExportKeepsDurable(s: State, g: Gid)
    requires Durable(s) && ExportDoc(s, g).Some?
    ensures Durable(ExportDoc(s, g).value)
  {
    var s' := ExportDoc(s, g).value;
    MoveKeepsDurable(s, s', g, s'.procs[g]);
  }

  /** A new entry: its number is above every number in use. */
  lemma CommitKeepsProcs(log: seq<Op>, op: Op, procs: map<Gid, Proc>, g: Gid, p: Proc)
    requires ProcsOk(log, procs) && g in procs
    requires p.pc.Appended? && p.pc.seqNo == |log| + 1 && p.job.Submit? && op == OpOf(p, |log| + 1)
    ensures ProcsOk(log + [op], procs[g := p])
  {
    assert forall i :: 0 <= i < |log| ==> (log + [op])[i] == log[i];
  }

  lemma CommitKeepsHistory(log: seq<Op>, op: Op, announced: seq<Op>, acked: seq<Op>, procs: map<Gid, Proc>, g: Gid,
                           p: Proc)
    requires AnnouncedOk(log, announced, procs) && AckedOk(log, acked, procs) && AnnouncedFirst(announced, acked, procs)
    requires g in procs && p.pc.Appended? && p.pc.seqNo == |log| + 1
    ensures AnnouncedOk(log + [op], announced, procs[g := p]) && AckedOk(log + [op], acked, procs[g := p])
    ensures AnnouncedFirst(announced, acked, procs[g := p])
  {
    assert forall i :: 0 <= i < |log| ==> (log + [op])[i] == log[i];
  }

  lemma AppendKeepsDurable(am: Automerge, s: State, g: Gid, ok: bool)
    requires Durable(s) && Append(am, s, g, ok).Some?
    ensures Durable(Append(am, s, g, ok).value)
  {
    var s' := Append(am, s, g, ok).value;
    if ok {
      var op := OpOf(s.procs[g], |s.log| + 1);
      CommitKeepsProcs(s.log, op, s.procs, g, s'.procs[g]);
      CommitKeepsHistory(s.log, op, s.announced, s.acked, s.procs, g, s'.procs[g]);
      CommitKeepsCreated(s.log, op, s.created, s.silenced, s.procs, g, s'.procs[g]);
    } else {
      MoveKeepsDurable(s, s', g, s'.procs[g]);
    }
  }

  /** A goroutine that keeps its number and moves on in the commit phase, or leaves it. */
  lemma AdvanceKeepsProcs(log: seq<Op>, procs: map<Gid, Proc>, g: Gid, p: Proc)
    requires ProcsOk(log, procs) && g in procs && Committing(procs[g].pc) && !p.pc.Sized?
    requires Committing(p.pc) ==> p.job == procs[g].job && p.pc.seqNo == procs[g].pc.seqNo
    ensures ProcsOk(log, procs[g := p])
  {
  }

  /** It neither announces nor acks. */
  lemma AdvanceKeepsHistory(log: seq<Op>, announced: seq<Op>, acked: seq<Op>, procs: map<Gid, Proc>, g: Gid, p: Proc)
    requires AnnouncedOk(log, announced, procs) && AckedOk(log, acked, procs) && AnnouncedFirst(announced, acked, procs)
    requires g in procs && Committing(procs[g].pc) && !procs[g].pc.Published?
    requires Committing(p.pc) && !p.pc.Published? && p.pc.seqNo == procs[g].pc.seqNo
    ensures AnnouncedOk(log, announced, procs[g := p]) && AckedOk(log, acked, procs[g := p])
    ensures AnnouncedFirst(announced, acked, procs[g := p])
  {
  }

  lemma EmitKeepsDurable(s: State, g: Gid)
    requires Durable(s) && Emit(s, g).Some?
    ensures Durable(Emit(s, g).value)
  {
    var p := Emit(s, g).value.procs[g];
    EmitKeepsCreated(s.log, s.created, s.silenced, s.procs, g, p);
    AdvanceKeepsProcs(s.log, s.procs, g, p);
    AdvanceKeepsHistory(s.log, s.announced, s.acked, s.procs, g, p);
  }

  lemma SaveKeepsDurable(cfg: Config, s: State, g: Gid, ok: bool)
    requires Durable(s) && Save(cfg, s, g, ok).Some?
    ensures Durable(Save(cfg, s, g, ok).value)
  {
    var p := Save(cfg, s, g, ok).value.procs[g];
    BirthKept(s.procs, g, p);
    AdvanceKeepsProcs(s.log, s.procs, g, p);
    AdvanceKeepsHistory(s.log, s.announced, s.acked, s.procs, g, p);
  }

  lemma AnnounceKeeps(log: seq<Op>, announced: seq<Op>, procs: map<Gid, Proc>, g: Gid, p: Proc, op: Op)
    requires ProcsOk(log, procs) && AnnouncedOk(log, announced, procs)
    requires g in procs && procs[g].pc.Saved? && p.pc.Published? && op == OpOf(procs[g], procs[g].pc.seqNo)
    ensures AnnouncedOk(log, announced + [op], procs[g := p])
  {
  }

  lemma AnnounceKeepsAcks(log: seq<Op>, announced: seq<Op>, acked: seq<Op>, procs: map<Gid, Proc>, g: Gid, p: Proc,
                          op: Op)
    requires AckedOk(log, acked, procs) && AnnouncedFirst(announced, acked, procs)
    requires g in procs && procs[g].pc.Saved? && p.pc.Published? && p.pc.seqNo == procs[g].pc.seqNo
    requires p.job.Submit? && op == OpOf(p, p.pc.seqNo)
    ensures AckedOk(log, acked, procs[g := p]) && AnnouncedFirst(announced + [op], acked, procs[g := p])
  {
    assert (announced + [op])[|announced|] == op;
    assert forall x :: x in announced ==> x in announced + [op];
  }

  lemma PublishKeepsDurable(s: State, g: Gid)
    requires Durable(s) && Publish(s, g).Some?
    ensures Durable(Publish(s, g).value)
  {
    var p, op := Publish(s, g).value.procs[g], OpOf(s.procs[g], s.procs[g].pc.seqNo);
    BirthKept(s.procs, g, p);
    AdvanceKeepsProcs(s.log, s.procs, g, p);
    AnnounceKeeps(s.log, s.announced, s.procs, g, p, op);
    AnnounceKeepsAcks(s.log, s.announced, s.acked, s.procs, g, p, op);
  }

  lemma AckKeeps(log: seq<Op>, acked: seq<Op>, procs: map<Gid, Proc>, g: Gid, p: Proc, op: Op)
    requires ProcsOk(log, procs) && AckedOk(log, acked, procs)
    requires g in procs && procs[g].pc.Published? && p.pc == Acked(procs[g].pc.seqNo) && p.job == procs[g].job
    requires p.job.Submit? && op == OpOf(p, p.pc.seqNo)
    ensures AckedOk(log, acked + [op], procs[g := p])
  {
    assert (acked + [op])[|acked|] == op;
    assert forall x :: x in acked ==> x in acked + [op];
  }

  lemma AckKeepsBroadcasts(log: seq<Op>, announced: seq<Op>, acked: seq<Op>, procs: map<Gid, Proc>, g: Gid, p: Proc,
                           op: Op)
    requires AnnouncedOk(log, announced, procs) && AnnouncedFirst(announced, acked, procs)
    requires g in procs && procs[g].pc.Published? && p.pc.Acked? && procs[g].job.Submit?
             && op == OpOf(procs[g], procs[g].pc.seqNo)
    ensures AnnouncedOk(log, announced, procs[g := p]) && AnnouncedFirst(announced, acked + [op], procs[g := p])
  {
  }

  lemma ReturnKeepsDurable(s: State, g: Gid)
    requires Durable(s) && Return(s, g).Some?
    ensures Durable(Return(s, g).value)
  {
    var p, op := Return(s, g).value.procs[g], OpOf(s.procs[g], s.procs[g].pc.seqNo);
    BirthKept(s.procs, g, p);
    AdvanceKeepsProcs(s.log, s.procs, g, p);
    AckKeeps(s.log, s.acked, s.procs, g, p, op);
    AckKeepsBroadcasts(s.log, s.announced, s.acked, s.procs, g, p, op);
  }

  lemma AdminKeepsDurable(cfg: Config, s: State, a: Action)
    requires Durable(s) && Quiescent(s, a) && (a.DoCrash? || a.DoDelete? || a.DoForget?)
    ensures Durable(Step(cfg, s, a).value)
  {
    if a.DoCrash? { CrashKeepsCreated(s, a.node); }
  }

  /** A crash takes the submit of entry 1 with it, or somebody else. */
  lemma CrashKeepsCreated(s: State, node: NodeId)
    requires ProcsOk(s.log, s.procs) && CreatedOk(s.log, s.created, s.silenced, s.procs)
    ensures var s' := Crash(s, node); CreatedOk(s'.log, s'.created, s'.silenced, s'.procs)
  {
    var s' := Crash(s, node);
    if Birth(s.procs) {
      var g :| g in s.procs && Unborn(s.procs[g].pc);
      assert OwnsEntry(s.log, s.procs[g], 1);
      if s.procs[g].node != node { assert g in s'.procs && s'.procs[g] == s.procs[g]; }
    }
  }

  lemma StepKeepsDurable(cfg: Config, s: State, a: Action)
    requires Durable(s) && QuietStep(cfg)(s, a).Some?
    ensures Durable(QuietStep(cfg)(s, a).value)
  {
    match a {
      case DoStart(g, node, job) => StartKeepsDurable(s, g, node, job);
      case DoLookup(g) => LookUpKeepsDurable(s, g);
      case DoReadSnapshot(g, ok) => ReadKeepsDurable(cfg.am, s, g, ok);
      case DoReadOps(g, ok) => ReadKeepsDurable(cfg.am, s, g, ok);
      case DoInstall(g, newCell) => InstallKeepsDurable(s, g, newCell);
      case DoAcquire(g) => AcquireKeepsDurable(s, g);
      case DoApply(g, r) => ApplyKeepsDurable(cfg.am, s, g, r);
      case DoAppend(g, ok) => AppendKeepsDurable(cfg.am, s, g, ok);
      case DoEmit(g) => EmitKeepsDurable(s, g);
      case DoSave(g, ok) => SaveKeepsDurable(cfg, s, g, ok);
      case DoPublish(g) => PublishKeepsDurable(s, g);
      case DoReturn(g) => ReturnKeepsDurable(s, g);
      case DoLatest(g) => GetLatestKeepsDurable(s, g);
      case DoSaveManual(g, ok) => SaveManualKeepsDurable(cfg.am, s, g, ok);
      case DoExport(g) => ExportKeepsDurable(s, g);
      case _ => AdminKeepsDurable(cfg, s, a);
    }
  }

  lemma InitDurable()
    ensures Durable(INIT)
  {
  }

  lemma ReachableDurable(cfg: Config, acts: seq<Action>)
    ensures Exec(QuietStep(cfg), INIT, acts).Some? ==> Durable(Exec(QuietStep(cfg), INIT, acts).value)
  {
    forall m: State, a: Action | Durable(m) && QuietStep(cfg)(m, a).Some?
      ensures Durable(QuietStep(cfg)(m, a).value)
    {
      StepKeepsDurable(cfg, m, a);
    }
    InitDurable();
    Invariance(QuietStep(cfg), (s: State) => Durable(s), INIT, acts);
  }

  /** In every run, over any number of nodes and through any crashes: every broadcast and every ack carries exactly the
      log entry at its number, no number is broadcast or acked twice, an ack follows its broadcast, the answer a
      submit got is among the acks, and the created event has fired at most once in this life: once if and only if
      something is committed, the submit of entry 1 has got past the event, and no crash took it before. */
  lemma NothingAnnouncedBeforeDurable(cfg: Config, acts: seq<Action>, s: State)
    requires Exec(QuietStep(cfg), INIT, acts) == Some(s)
    ensures Numbered(s.log)
    ensures Logged(s.log, s.announced) && Distinct(s.announced)
    ensures Logged(s.log, s.acked) && Distinct(s.acked)
    ensures forall op :: op in s.acked ==> op in s.announced
    ensures forall g :: g in s.procs && s.procs[g].pc.Acked? ==>
                          s.procs[g].job.Submit? && OpOf(s.procs[g], s.procs[g].pc.seqNo) in s.acked
    ensures s.created <= 1
    ensures s.created == 1 <==> s.log != [] && !s.silenced && !Birth(s.procs)
  {
    ReachableDurable(cfg, acts);
  }

  ghost predicate HistoryGrows(s: State, s': State) {
    s.log <= s'.log && s.announced <= s'.announced && s.acked <= s'.acked
  }

  lemma LoadingGrows(cfg: Config, s: State, a: Action)
    requires Step(cfg, s, a).Some?
    requires a.DoStart? || a.DoLookup? || a.DoReadSnapshot? || a.DoReadOps? || a.DoInstall? || a.DoAcquire?
             || a.DoApply?
    ensures HistoryGrows(s, Step(cfg, s, a).value)
  {
  }

  /** Until the document is deleted, the log, the broadcasts and the acks only grow. */
  lemma HistoryOnlyGrows(cfg: Config, s: State, a: Action)
    requires Step(cfg, s, a).Some? && !a.DoDelete?
    ensures HistoryGrows(s, Step(cfg, s, a).value)
  {
    if a.DoStart? || a.DoLookup? || a.DoReadSnapshot? || a.DoReadOps? || a.DoInstall? || a.DoAcquire? || a.DoApply? {
      LoadingGrows(cfg, s, a);
    }
  }
}
