/** Where the engine's guarantees end: runs that break them once a hypothesis is dropped, and the resolver failures that
    make no difference. */
module EngineLimits {
  import opened Core
  import opened Crdt
  import opened Runs
  import opened EngineProtocol
  import opened EngineDurability
  import opened EngineServer
  import opened EngineCache
  import opened EngineRuns
  import EngineRefinement
  import EngineNodes
  import EngineDelete
  import EngineDeleteRuns
  import CrdtInstance
  import Transactions

  // ----- a failing resolver makes no difference -------------------------------------------------------------------

  /** The same action in a deployment without a resolver. */
  function Unresolved(a: Action): Action {
    if a.DoApply? then DoApply(a.g, Unconfigured) else a
  }

  function AllUnresolved(acts: seq<Action>): seq<Action> {
    seq(|acts|, i requires 0 <= i < |acts| => Unresolved(acts[i]))
  }

  /** Whatever the resolver does, as long as it errs, is not consulted or replies with unloadable bytes, the run is
      step for step the run without a resolver: same log, cache, snapshots, acks and broadcasts. */
  lemma {:induction false} FailingResolverIsTransparent(cfg: Config, acts: seq<Action>)
    requires forall i :: 0 <= i < |acts| && acts[i].DoApply? ==> Automatic(cfg.am, acts[i].r)
    ensures Exec(AnyStep(cfg), INIT, acts) == Exec(AnyStep(cfg), INIT, AllUnresolved(acts))
    decreases |acts|
  {
    if acts != [] {
      var before := acts[..|acts| - 1];
      FailingResolverIsTransparent(cfg, before);
      assert AllUnresolved(acts)[..|acts| - 1] == AllUnresolved(before);
    }
  }

  // ----- a resolver that replaces the document --------------------------------------------------------------------

  /** Unrestricted runs on one node, with one outcome of the resolver. */
  ghost function Resolving(cfg: Config, h: NodeId, r: Resolution): Setting {
    Setting(cfg, h, r, AnyStep(cfg), INIT)
  }

  /** An op whose changes a document lacks, when it lacks something of the log. */
  lemma {:induction false} LackedOp(am: Automerge, log: seq<Op>, d: Doc) returns (i: nat)
    requires !(Fold(am, log) <= d)
    ensures i < |log| && !(Changes(am, log[i].payload) <= d)
    decreases |log|
  {
    if Changes(am, log[|log| - 1].payload) <= d {
      i := LackedOp(am, log[..|log| - 1], d);
    } else {
      i := |log| - 1;
    }
  }

  /** What the submit whose reply replaces the document makes of the view. */
  lemma RepliedView(cfg: Config, h: NodeId, jobs: seq<Job>, b: Job, bytes: Bytes, s: State)
    requires EngineDeleteRuns.Carries(cfg.am, b) && cfg.am.load(bytes).Some?
             && EngineDeleteRuns.Filled(cfg.am, h, jobs, s)
    ensures var n, op := |jobs| + 1, Op(|jobs| + 1, b.session, b.payload);
            Submitted(cfg, Transactions.Immediate, Seen(s, h, true), b.session, b.payload, Replied(bytes),
                      EngineDeleteRuns.SAVE_FAILS)
            == (View(true, s.log + [op], map[], cfg.am.load(bytes)), Some(n))
  {
    if jobs == [] { EngineDeleteRuns.UnwrittenOpensEmpty(cfg.am, s, h, true, EngineDeleteRuns.SAVE_FAILS); }
  }

  /** The last submit's reply replaced the document. */
  lemma RepliedTo(cfg: Config, h: NodeId, jobs: seq<Job>, b: Job, bytes: Bytes) returns (s: State)
    requires EngineDeleteRuns.Carries(cfg.am, b) && cfg.am.load(bytes).Some? && EngineDeleteRuns.AllCarry(cfg.am, jobs)
    ensures Resolving(cfg, h, Replied(bytes)).At(s)
    ensures EngineDeleteRuns.Holding(s.log, jobs + [b]) && s.acked == s.log && s.snaps == map[]
    ensures Idle(s, h) && Cached(h, s) && CachedDoc(h, s) == cfg.am.load(bytes).value
    ensures |jobs| + 1 !in s.procs && 2 !in s.cells
  {
    var s1 := EngineDeleteRuns.Fill(Resolving(cfg, h, NotConsulted), jobs);
    var w := Resolving(cfg, h, Replied(bytes));
    assert w.At(s1);
    RepliedView(cfg, h, jobs, b, bytes, s1);
    s := EngineRefinement.SubmitIsARun(w, Transactions.Immediate, s1, |jobs|, if jobs == [] then 0 else 1, true,
                                       b.session, b.payload, EngineDeleteRuns.SAVE_FAILS);
  }

  /** Whatever was submitted before, whatever is submitted now and whatever the resolver replies: after the reply and a
      snapshot, the cached document and what a load yields contain the log if and only if the reply contained the state
      and the change the resolver was sent; otherwise an acked change is lost from both. */
  lemma ReplyLosesExactlyWhen(cfg: Config, h: NodeId, jobs: seq<Job>, b: Job, bytes: Bytes) returns (s: State)
    requires cfg.am.Laws() && EngineDeleteRuns.Carries(cfg.am, b) && cfg.am.load(bytes).Some?
    requires EngineDeleteRuns.AllCarry(cfg.am, jobs)
    ensures Resolving(cfg, h, Replied(bytes)).At(s) && EngineDeleteRuns.Holding(s.log, jobs + [b]) && s.acked == s.log
    ensures var reply, sent := cfg.am.load(bytes).value, Fold(cfg.am, s.log[..|jobs|]);
            && (EngineDelete.NoLoss(cfg.am, h, s) <==> sent + Changes(cfg.am, b.payload) <= reply)
            && (EngineDeleteRuns.Loses(cfg.am, h, s) <==> !(sent + Changes(cfg.am, b.payload) <= reply))
  {
    var am, n, reply := cfg.am, |jobs| + 1, cfg.am.load(bytes).value;
    var s1 := RepliedTo(cfg, h, jobs, b, bytes);
    s := EngineRefinement.SnapshotIsARun(Resolving(cfg, h, Replied(bytes)), s1, n, 2, true,
                                         ALL_SUCCEED);
    EngineDeleteRuns.SnapshotHidesLog(am, s, n, reply);
    assert s.log == s.log[..|jobs|] + [s.log[|jobs|]];
    FoldSnoc(am, s.log[..|jobs|], s.log[|jobs|]);
    if Fold(am, s.log) <= reply {
      if EngineDeleteRuns.Loses(am, h, s) { EngineDeleteRuns.LosesIsLoss(am, h, s); }
    } else {
      var i := LackedOp(am, s.log, reply);
      assert s.log[i] in s.acked && EngineDeleteRuns.Missing(am, h, s, s.log[i]);
    }
  }

  // ----- several nodes --------------------------------------------------------------------------------------------

  /** Runs of any number of nodes, seen from one of them. */
  ghost function From(cfg: Config, node: NodeId): Setting {
    Setting(cfg, node, Unconfigured, EngineNodes.NodesStep(cfg), INIT)
  }

  lemma AtAnyNode(cfg: Config, n: NodeId, m: NodeId, s: State)
    requires From(cfg, n).At(s)
    ensures From(cfg, m).At(s)
  {
    assert From(cfg, m).Allows();
  }

  /** Node 1 has the empty document cached. */
  lemma OpenedAtOne(cfg: Config) returns (s: State)
    ensures From(cfg, 1).At(s) && EngineDeleteRuns.Unwritten(s) && s.acked == []
    ensures s.entry == map[1 := 1] && Idle(s, 1) && Cached(1, s) && CachedDoc(1, s) == {}
    ensures (forall g :: g in s.procs ==> g == 1) && (forall c :: c in s.cells ==> c == 1)
  {
    AtStart(From(cfg, 1));
    EngineDeleteRuns.UnwrittenOpensEmpty(cfg.am, INIT, 1, true, ALL_SUCCEED);
    s := EngineRefinement.ExportIsARun(From(cfg, 1), INIT, 1, 1, true, ALL_SUCCEED);
    assert s.entry == map[1 := 1];
  }

  /** Meanwhile node 0 commits and acks entry 1. */
  lemma AckedElsewhere(cfg: Config, a: Job) returns (s: State)
    requires EngineDeleteRuns.Carries(cfg.am, a)
    ensures From(cfg, 1).At(s) && s.log == [Op(1, a.session, a.payload)] && s.acked == s.log && s.snaps == map[]
    ensures Idle(s, 1) && Cached(1, s) && CachedDoc(1, s) == {} && 2 !in s.procs && 2 !in s.cells
  {
    var s1 := OpenedAtOne(cfg);
    AtAnyNode(cfg, 1, 0, s1);
    s := EngineDeleteRuns.FirstSubmit(From(cfg, 0), s1, 0, 0, a);
    AtAnyNode(cfg, 0, 1, s);
  }

  /** Then node 1 takes a snapshot by hand: it is numbered 1 and lacks entry 1, and loading the document from then on
      loses it. No delete, no refused append, any snapshot interval. */
  lemma RemoteChangeMissingFromManualSnapshot(cfg: Config, a: Job) returns (s: State)
    requires cfg.am.Laws() && EngineDeleteRuns.Carries(cfg.am, a) && Changes(cfg.am, a.payload) != {}
    ensures From(cfg, 1).At(s) && EngineDeleteRuns.Loses(cfg.am, 1, s) && Loaded(cfg.am, s) == Some({})
  {
    var s1 := AckedElsewhere(cfg, a);
    s := EngineRefinement.SnapshotIsARun(From(cfg, 1), s1, 2, 2, true, ALL_SUCCEED);
    EngineDeleteRuns.HiddenLoses(cfg.am, 1, s, 1, {}, a);
    EngineDeleteRuns.SnapshotHidesLog(cfg.am, s, 1, {});
  }

  /** Or node 1 commits entry 2 and saves the periodic snapshot under number 2, which lacks entry 1. */
  lemma RemoteChangeMissingFromSnapshot(cfg: Config, a: Job, b: Job) returns (s: State)
    requires cfg.am.Laws() && cfg.snapshotEvery == 2 && EngineDeleteRuns.Differ(cfg.am, b, a)
    ensures From(cfg, 1).At(s) && EngineDeleteRuns.Loses(cfg.am, 1, s)
    ensures |s.log| == 2 && Loaded(cfg.am, s) == Some(Changes(cfg.am, b.payload))
  {
    var s1 := AckedElsewhere(cfg, a);
    SubmittedSecond(cfg, Seen(s1, 1, true), b);
    s := EngineRefinement.SubmitIsARun(From(cfg, 1), Transactions.Immediate, s1, 2, 2, true, b.session, b.payload,
                                       ALL_SUCCEED);
    SecondHidesFirst(cfg.am, s, a, b);
  }

  /** A submit that commits entry 2 from an empty cached document saves its own changes only. */
  lemma SubmittedSecond(cfg: Config, v: View, b: Job)
    requires cfg.snapshotEvery == 2 && EngineDeleteRuns.Carries(cfg.am, b) && v.cached == Some({}) && |v.log| == 1
             && v.snaps == map[]
    ensures var d := Changes(cfg.am, b.payload);
            Submitted(cfg, Transactions.Immediate, v, b.session, b.payload, Unconfigured, ALL_SUCCEED)
            == (View(true, v.log + [Op(2, b.session, b.payload)], map[2 := cfg.am.save(d)], Some(d)), Some(2))
  {
    assert {} + Changes(cfg.am, b.payload) == Changes(cfg.am, b.payload);
  }

  /** A snapshot of the second entry alone, numbered 2, hides the first. */
  lemma SecondHidesFirst(am: Automerge, s: State, a: Job, b: Job)
    requires am.Laws() && EngineDeleteRuns.Differ(am, b, a) && s.snaps == map[2 := am.save(Changes(am, b.payload))]
    requires |s.log| == 2 && s.log[0] == Op(1, a.session, a.payload) && s.log[0] in s.acked
    ensures EngineDeleteRuns.Loses(am, 1, s) && Loaded(am, s) == Some(Changes(am, b.payload))
  {
    EngineDeleteRuns.SnapshotHidesLog(am, s, 2, Changes(am, b.payload));
    assert EngineDeleteRuns.Missing(am, 1, s, s.log[0]);
  }

  // ----- the failures happen --------------------------------------------------------------------------------------

  /** With an encoding that satisfies the laws, and payloads of one byte. */
  lemma RemoteLossHappens()
    ensures exists cfg: Config, s: State :: cfg.am.Laws() && From(cfg, 1).At(s) && EngineDeleteRuns.Loses(cfg.am, 1, s)
  {
    CrdtInstance.InstanceLaws();
    var s := RemoteChangeMissingFromManualSnapshot(Config(CrdtInstance.Instance(), 0), Submit("a", [1]));
  }

  lemma DeleteRaceHappens(z: EngineDelete.Hazard)
    ensures exists cfg: Config,
            s: State :: cfg.am.Laws() && EngineDeleteRuns.Race(cfg, 0, {z}).At(s)
                        && EngineDeleteRuns.Loses(cfg.am, 0, s)
  {
    CrdtInstance.InstanceLaws();
    var s := EngineDeleteRuns.HazardLoses(Config(CrdtInstance.Instance(), 1), 0, {z}, Submit("a", [1]),
                                          Submit("b", [2]), z);
  }

  /** The very first submit has committed and not yet fired the created event. */
  lemma FirstCommitted(w: Setting, a: Job) returns (s: State)
    requires w.Allows() && w.start == INIT && w.r == Unconfigured && EngineDeleteRuns.Carries(w.cfg.am, a)
    ensures w.At(s) && |s.log| == 1 && s.created == 0
    ensures 0 in s.procs && s.procs[0].pc == Appended(0, 1) && forall g :: g in s.procs ==> s.procs[g].node == w.node
  {
    AtStart(w);
    EngineDeleteRuns.UnwrittenOpensEmpty(w.cfg.am, INIT, w.node, true, ALL_SUCCEED);
    var s1 := HoldRun(w, INIT, 0, a, 0, true, ALL_SUCCEED);
    var s2 := ApplyRun(w, s1, 0, 0);
    s := AppendRun(w, s2, 0, 0);
  }

  /** A node that dies between the commit of entry 1 and the created event leaves a document nobody was told of: nobody
      is in flight, and the event has not fired. */
  lemma CrashSilencesCreated(cfg: Config, h: NodeId, a: Job) returns (acts: seq<Action>, s: State)
    requires EngineDeleteRuns.Carries(cfg.am, a)
    ensures Exec(QuietStep(cfg), INIT, acts) == Some(s)
    ensures s.procs == map[] && |s.log| == 1 && s.created == 0 && s.silenced
  {
    var w := Setting(cfg, h, Unconfigured, QuietStep(cfg), INIT);
    var s1 := FirstCommitted(w, a);
    s := Crash(s1, h);
    assert Step(cfg, s1, DoCrash(h)) == Some(s);
    Extend(w, s1, DoCrash(h), s);
    acts :| Exec(w.step, w.start, acts) == Some(s);
  }

  /** A node that dies between a commit and the save it owes leaves a tail as long as the interval, with nobody in
      flight. */
  lemma CrashOwesASave(cfg: Config, h: NodeId, a: Job) returns (s: State)
    requires cfg.snapshotEvery > 0 && EngineDeleteRuns.Carries(cfg.am, a)
    ensures EngineDeleteRuns.Race(cfg, h, {}).At(s) && s.procs == map[]
    ensures |Since(s.log, SnapSeq(s.snaps))| == cfg.snapshotEvery
  {
    var s1, _ := EngineDeleteRuns.OwedInFlight(cfg, h, {}, a, false);
    s := EngineDeleteRuns.CrashRun(cfg, h, {}, s1);
  }
}
